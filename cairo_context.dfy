/** The metric context of src/CairoContext.cpp: the face cache keyed by a
    resolution key, font selection, release of the cache at teardown and the
    derivation of metrics from Cairo's text extents. */
module Cairo {
  import opened Native

  /** The font size a fresh Cairo context starts with. */
  const DefaultFontSize: real := 10.0

  // ---------------------------------------------------------------------------
  // Resolution keys
  // ---------------------------------------------------------------------------

  /** A style flag as `%d` prints `(int) flag`. */
  function FlagDigit(b: bool): char
  {
    if b then '1' else '0'
  }

  /** The key of a font resolved by name: the name, then " %d %d" of bold and italic. */
  function NameKey(fontname: string, bold: bool, italic: bool): string
  {
    fontname + [' ', FlagDigit(bold), ' ', FlagDigit(italic)]
  }

  /** Reads name and flags back from a name key; None when `k` is not one. */
  function ParseNameKey(k: string): Option<(string, bool, bool)>
  {
    var n := |k|;
    if n >= 4 && k[n - 4] == ' ' && k[n - 2] == ' ' && k[n - 3] in "01" && k[n - 1] in "01"
    then Some((k[..n - 4], k[n - 3] == '1', k[n - 1] == '1'))
    else None
  }

  /** A name key determines the name and both flags it was built from. */
  lemma NameKeyRoundTrip(fontname: string, bold: bool, italic: bool)
    ensures ParseNameKey(NameKey(fontname, bold, italic)) == Some((fontname, bold, italic))
  {
  }

  /** Two name-resolved requests share a cache entry only when they agree on
      name, bold and italic. */
  lemma NameKeyInjective(n1: string, b1: bool, i1: bool, n2: string, b2: bool, i2: bool)
    requires NameKey(n1, b1, i1) == NameKey(n2, b2, i2)
    ensures n1 == n2 && b1 == b2 && i1 == i2
  {
    NameKeyRoundTrip(n1, b1, i1);
    NameKeyRoundTrip(n2, b2, i2);
  }

  /** The cache key of a request: the file path when one is given, otherwise
      the name key. The font size takes no part in it. */
  function CacheKey(fontname: string, bold: bool, italic: bool, fontfile: string): (k: string)
    ensures fontfile != "" ==> k == fontfile
    ensures fontfile == "" ==> ParseNameKey(k) == Some((fontname, bold, italic))
  {
    NameKeyRoundTrip(fontname, bold, italic);
    if fontfile != "" then fontfile else NameKey(fontname, bold, italic)
  }

  /** Keys from files and keys from names share one namespace: a file whose
      path reads like a name key is found under that name's entry, whatever
      name and style the file request carries. */
  lemma FileKeyMeetsNameKey(fontname: string, bold: bool, italic: bool,
                            otherName: string, otherBold: bool, otherItalic: bool)
    ensures CacheKey(otherName, otherBold, otherItalic, NameKey(fontname, bold, italic))
         == CacheKey(fontname, bold, italic, "")
  {
  }

  /** A file request's key ignores bold and italic: once a file is cached,
      a request for the same file in another style (and any size) is a hit.
      It makes no native call and keeps the face loaded at the first style's
      face index. */
  lemma FileKeyIgnoresStyle(lib: Library, st: State, fontfile: string,
                            name1: string, size1: real, bold1: bool, italic1: bool,
                            name2: string, size2: real, bold2: bool, italic2: bool)
    requires fontfile != "" && fontfile !in st.fonts
    ensures var (s1, o1) := SetFontStep(lib, st, name1, size1, bold1, italic1, fontfile);
      o1.Pass? ==>
        var (s2, o2) := SetFontStep(lib, s1, name2, size2, bold2, italic2, fontfile);
        o2.Pass? && s2.fonts == s1.fonts && s2.calls == s1.calls && s2.active == s1.active
        && s2.active.Some?
        && s2.active.value.source == FontFile(fontfile, lib.findFontIndex(fontfile, bold1, italic1))
  {
    var (s1, o1) := SetFontStep(lib, st, name1, size1, bold1, italic1, fontfile);
    SetFontMiss(lib, st, name1, size1, bold1, italic1, fontfile);
    if o1.Pass? {
      SetFontHit(lib, s1, name2, size2, bold2, italic2, fontfile);
    }
  }

  // ---------------------------------------------------------------------------
  // Font resolution
  // ---------------------------------------------------------------------------

  /** findFontFile: the file and face index Fontconfig matches for a name.
      It fails when there is no match, the match carries no file, or the file
      path is empty. */
  function FindFontFile(lib: Library, fontname: string, bold: bool, italic: bool): (r: Result<FontFile, Error>)
    ensures r.Success? <==>
      (var m := lib.findMatch(fontname, bold, italic);
       m.Some? && m.value.file.Some? && m.value.file.value != "")
    ensures r.Success? ==>
      r.value.file != ""
      && r.value == FontFile(lib.findMatch(fontname, bold, italic).value.file.value,
                             lib.findMatch(fontname, bold, italic).value.index)
    ensures r.Failure? ==> r.error == UnableToMatch
  {
    match lib.findMatch(fontname, bold, italic)
    case Some(Pattern(Some(file), index)) =>
      if file != "" then Success(FontFile(file, index)) else Failure(UnableToMatch)
    case _ => Failure(UnableToMatch)
  }

  /** The file and face index a request loads on a cache miss: the given file
      at the index Fontconfig picks for the style, or the match for the name. */
  function Resolve(lib: Library, fontname: string, bold: bool, italic: bool, fontfile: string): Result<FontFile, Error>
  {
    if fontfile != "" then Success(FontFile(fontfile, lib.findFontIndex(fontfile, bold, italic)))
    else FindFontFile(lib, fontname, bold, italic)
  }

  /** Whether loading a file into the cache succeeds, and the error if not. */
  function LoadOutcome(lib: Library, src: FontFile): Outcome<Error>
  {
    if !lib.newFace(src) then Fail(UnableToOpen(src.file))
    else if !lib.setUserData(src) then Fail(UnableToHandle(src.file))
    else Pass
  }

  // ---------------------------------------------------------------------------
  // The context's state and its transitions
  // ---------------------------------------------------------------------------

  /** The observable state of a metric context: the face cache, the next
      fresh face id, the face and size set on the Cairo context (None: Cairo's
      default face) and the log of native calls made so far. */
  datatype State = State(
    fonts: map<string, Face>,
    nextId: nat,
    active: Option<Face>,
    size: real,
    calls: seq<NativeCall>)

  /** The state of a freshly constructed context. */
  function Initial(): State
  {
    State(map[], 0, None, DefaultFontSize, [])
  }

  /** The cache holds faces of distinct loads, each with an id already handed
      out, and the active face, if any, is one of them. */
  ghost predicate ValidState(st: State)
  {
    (forall k :: k in st.fonts ==> st.fonts[k].id < st.nextId)
    && (forall k1, k2 :: k1 in st.fonts && k2 in st.fonts && k1 != k2 ==> st.fonts[k1].id != st.fonts[k2].id)
    && (st.active.Some? ==> st.active.value in st.fonts.Values)
  }

  /** cacheFont: open the file at the index, wrap it as a Cairo face that owns
      the FreeType face, and store it under `key`. */
  function CacheFontStep(lib: Library, st: State, key: string, src: FontFile): (State, Outcome<Error>)
  {
    var tried := st.(calls := st.calls + [NewFace(src)]);
    if !lib.newFace(src) then (tried, Fail(UnableToOpen(src.file)))
    else
      var face := Face(st.nextId, src);
      var wrapped := tried.(nextId := st.nextId + 1);
      if !lib.setUserData(src) then
        (wrapped.(calls := wrapped.calls + [DestroyFontFace(face), DoneFace(face)]), Fail(UnableToHandle(src.file)))
      else
        (wrapped.(fonts := st.fonts[key := face]), Pass)
  }

  /** The two ways cacheFont fails, and what each leaves behind: nothing is
      inserted, and when Cairo refuses the face both the Cairo face and the
      FreeType face are released. On success exactly one fresh entry is added. */
  lemma CacheFontOutcomes(lib: Library, st: State, key: string, src: FontFile)
    ensures var (st', o) := CacheFontStep(lib, st, key, src);
      st'.active == st.active && st'.size == st.size
      && (o.Fail? ==> st'.fonts == st.fonts)
      && (o == Fail(UnableToOpen(src.file)) <==> !lib.newFace(src))
      && (o == Fail(UnableToHandle(src.file)) <==> lib.newFace(src) && !lib.setUserData(src))
      && (o == Fail(UnableToOpen(src.file)) ==> st'.calls == st.calls + [NewFace(src)])
      && (o == Fail(UnableToHandle(src.file)) ==>
            var f := Face(st.nextId, src);
            st'.calls == st.calls + [NewFace(src), DestroyFontFace(f), DoneFace(f)])
      && (o.Pass? ==> st'.fonts == st.fonts[key := Face(st.nextId, src)] && st'.calls == st.calls + [NewFace(src)])
  {
  }

  /** cacheFont, called on a miss, keeps the cache invariant: the new face
      has a fresh id and no cached entry is replaced. */
  lemma CacheFontValid(lib: Library, st: State, key: string, src: FontFile)
    requires ValidState(st) && key !in st.fonts
    ensures ValidState(CacheFontStep(lib, st, key, src).0)
  {
    var st' := CacheFontStep(lib, st, key, src).0;
    if st.active.Some? {
      var k :| k in st.fonts && st.fonts[k] == st.active.value;
      assert k in st'.fonts && st'.fonts[k] == st'.active.value;
    }
  }

  /** setFont: derive the key; on a miss resolve the font and cache it; then
      set the size and the cached face on the Cairo context. A failure leaves
      the face and size as they were. */
  function SetFontStep(lib: Library, st: State, fontname: string, fontsize: real,
                       bold: bool, italic: bool, fontfile: string): (State, Outcome<Error>)
  {
    var key := CacheKey(fontname, bold, italic, fontfile);
    var (loaded, o) :=
      if key in st.fonts then (st, Pass)
      else if fontfile != "" then
        var looked := st.(calls := st.calls + [FindFontIndex(fontfile, bold, italic)]);
        CacheFontStep(lib, looked, key, FontFile(fontfile, lib.findFontIndex(fontfile, bold, italic)))
      else
        var looked := st.(calls := st.calls + [FindMatch(fontname, bold, italic)]);
        match FindFontFile(lib, fontname, bold, italic)
        case Failure(e) => (looked, Fail(e))
        case Success(ff) => CacheFontStep(lib, looked, key, ff);
    if o.Fail? || key !in loaded.fonts then (loaded, o)
    else (loaded.(active := Some(loaded.fonts[key]), size := fontsize), Pass)
  }

  /** A cache hit loads nothing, calls nothing and leaves the cache alone; it
      only sets the cached face and the size. */
  lemma SetFontHit(lib: Library, st: State, fontname: string, fontsize: real,
                   bold: bool, italic: bool, fontfile: string)
    requires CacheKey(fontname, bold, italic, fontfile) in st.fonts
    ensures SetFontStep(lib, st, fontname, fontsize, bold, italic, fontfile)
         == (st.(active := Some(st.fonts[CacheKey(fontname, bold, italic, fontfile)]), size := fontsize), Pass)
  {
  }

  /** A miss succeeds exactly when the font resolves and loads; then exactly
      one entry, a fresh face of the resolved file, is added under the key.
      On failure the cache, the face and the size are unchanged. */
  lemma SetFontMiss(lib: Library, st: State, fontname: string, fontsize: real,
                    bold: bool, italic: bool, fontfile: string)
    requires CacheKey(fontname, bold, italic, fontfile) !in st.fonts
    ensures var key := CacheKey(fontname, bold, italic, fontfile);
      var (st', o) := SetFontStep(lib, st, fontname, fontsize, bold, italic, fontfile);
      var res := Resolve(lib, fontname, bold, italic, fontfile);
      (o.Pass? <==> res.Success? && LoadOutcome(lib, res.value).Pass?)
      && (res.Failure? ==> o == Fail(res.error))
      && (res.Success? ==> o == LoadOutcome(lib, res.value))
      && (o.Pass? ==>
            var f := Face(st.nextId, res.value);
            st'.fonts == st.fonts[key := f]
            && |st'.fonts| == |st.fonts| + 1
            && st'.active == Some(f) && st'.size == fontsize)
      && (o.Fail? ==> st'.fonts == st.fonts && st'.active == st.active && st'.size == st.size)
  {
  }

  /** After a successful setFont the key is cached, the active face is its
      entry and the size is the requested one. */
  lemma SetFontSelects(lib: Library, st: State, fontname: string, fontsize: real,
                       bold: bool, italic: bool, fontfile: string)
    ensures var key := CacheKey(fontname, bold, italic, fontfile);
      var (st', o) := SetFontStep(lib, st, fontname, fontsize, bold, italic, fontfile);
      o.Pass? ==> key in st'.fonts && st'.active == Some(st'.fonts[key]) && st'.size == fontsize
  {
  }

  /** Repeating a successful setFont with the same arguments changes nothing. */
  lemma SetFontIdempotent(lib: Library, st: State, fontname: string, fontsize: real,
                          bold: bool, italic: bool, fontfile: string)
    ensures var (st', o) := SetFontStep(lib, st, fontname, fontsize, bold, italic, fontfile);
      o.Pass? ==> SetFontStep(lib, st', fontname, fontsize, bold, italic, fontfile) == (st', Pass)
  {
  }

  /** Two requests that differ only in size reach the same cache, the same
      face, the same native calls and the same outcome. */
  lemma SetFontSizeIndependent(lib: Library, st: State, fontname: string, size1: real, size2: real,
                               bold: bool, italic: bool, fontfile: string)
    ensures var (s1, o1) := SetFontStep(lib, st, fontname, size1, bold, italic, fontfile);
      var (s2, o2) := SetFontStep(lib, st, fontname, size2, bold, italic, fontfile);
      o1 == o2 && s1.fonts == s2.fonts && s1.active == s2.active
      && s1.calls == s2.calls && s1.nextId == s2.nextId
  {
  }

  /** setFont keeps the cache invariant. */
  lemma SetFontValid(lib: Library, st: State, fontname: string, fontsize: real,
                     bold: bool, italic: bool, fontfile: string)
    requires ValidState(st)
    ensures ValidState(SetFontStep(lib, st, fontname, fontsize, bold, italic, fontfile).0)
  {
  }

  // ---------------------------------------------------------------------------
  // Metrics
  // ---------------------------------------------------------------------------

  /** getExtents: width is the advance, height the ink box height, ascent the
      part above the baseline and descent the part below, so that over the
      reals ascent and descent add up to the height. */
  function Metrics(te: TextExtents): (fm: FontMetric)
    ensures fm.width == te.xAdvance && fm.height == te.height
    ensures fm.ascent == -te.yBearing && fm.descent == te.height + te.yBearing
    ensures fm.ascent + fm.descent == fm.height
  {
    FontMetric(te.xAdvance, te.height, -te.yBearing, te.height + te.yBearing)
  }

  /** The file of a face set on the context; None for Cairo's default face. */
  function ActiveFile(active: Option<Face>): Option<FontFile>
  {
    if active.Some? then Some(active.value.source) else None
  }

  /** The metrics of a string measured with the face and size of a state. */
  function MeasuredIn(lib: Library, st: State, s: string): (fm: FontMetric)
    ensures fm.ascent + fm.descent == fm.height
  {
    Metrics(lib.textExtents(ActiveFile(st.active), st.size, s))
  }

  /** What the libraries' initialisation in the constructor yields. */
  function InitOutcome(lib: Library): Outcome<Error>
  {
    if !lib.fcInit then Fail(FontconfigInit)
    else if !lib.ftInit then Fail(FreeTypeInit)
    else Pass
  }

  /** The state of a fresh context after one setFont, or the error that
      stopped the constructor or setFont. */
  function ContextWithFont(lib: Library, fontname: string, fontsize: real,
                           bold: bool, italic: bool, fontfile: string): (r: Result<State, Error>)
    ensures InitOutcome(lib).Fail? ==> r == Failure(InitOutcome(lib).error)
    ensures InitOutcome(lib).Pass? ==>
      var res := Resolve(lib, fontname, bold, italic, fontfile);
      (r.Success? <==> res.Success? && LoadOutcome(lib, res.value).Pass?)
      && (r.Success? ==> r.value.active == Some(Face(0, res.value)) && r.value.size == fontsize)
  {
    match InitOutcome(lib)
    case Fail(e) => Failure(e)
    case Pass =>
      SetFontMiss(lib, Initial(), fontname, fontsize, bold, italic, fontfile);
      var (st, o) := SetFontStep(lib, Initial(), fontname, fontsize, bold, italic, fontfile);
      if o.Fail? then Failure(o.error) else Success(st)
  }

  // ---------------------------------------------------------------------------
  // The context object
  // ---------------------------------------------------------------------------

  class CairoContext {
    const lib: Library
    var fonts: map<string, Face>
    var nextId: nat
    var active: Option<Face>
    var size: real
    var calls: seq<NativeCall>
    var live: bool

    function Snapshot(): State
      reads this
    {
      State(fonts, nextId, active, size, calls)
    }

    ghost predicate Valid()
      reads this
    {
      ValidState(Snapshot())
    }

    /** The part of the constructor that runs once both libraries initialised. */
    constructor (lib: Library)
      ensures this.lib == lib && live && Valid()
      ensures Snapshot() == Initial()
    {
      this.lib := lib;
      fonts := map[];
      nextId := 0;
      active := None;
      size := DefaultFontSize;
      calls := [];
      live := true;
    }

    method CacheFont(key: string, src: FontFile) returns (o: Outcome<Error>)
      requires live && Valid() && key !in fonts
      modifies this
      ensures live && Valid()
      ensures (Snapshot(), o) == CacheFontStep(lib, old(Snapshot()), key, src)
    {
      CacheFontValid(lib, Snapshot(), key, src);
      calls := calls + [NewFace(src)];
      if !lib.newFace(src) {
        return Fail(UnableToOpen(src.file));
      }
      var face := Face(nextId, src);
      nextId := nextId + 1;
      if !lib.setUserData(src) {
        calls := calls + [DestroyFontFace(face), DoneFace(face)];
        return Fail(UnableToHandle(src.file));
      }
      fonts := fonts[key := face];
      o := Pass;
    }

    method SetFont(fontname: string, fontsize: real, bold: bool, italic: bool, fontfile: string := "")
      returns (o: Outcome<Error>)
      requires live && Valid()
      modifies this
      ensures live && Valid()
      ensures (Snapshot(), o) == SetFontStep(lib, old(Snapshot()), fontname, fontsize, bold, italic, fontfile)
    {
      SetFontValid(lib, Snapshot(), fontname, fontsize, bold, italic, fontfile);
      var key := CacheKey(fontname, bold, italic, fontfile);
      if fontfile != "" {
        if key !in fonts {
          calls := calls + [FindFontIndex(fontfile, bold, italic)];
          var index := lib.findFontIndex(fontfile, bold, italic);
          o := CacheFont(key, FontFile(fontfile, index));
          if o.Fail? {
            return;
          }
        }
      } else {
        if key !in fonts {
          calls := calls + [FindMatch(fontname, bold, italic)];
          var found := FindFontFile(lib, fontname, bold, italic);
          if found.Failure? {
            return Fail(found.error);
          }
          o := CacheFont(key, found.value);
          if o.Fail? {
            return;
          }
        }
      }
      size := fontsize;
      active := Some(fonts[key]);
      o := Pass;
    }

    /** getExtents: the metrics of `s` with the face and size currently set. */
    function GetExtents(s: string): (fm: FontMetric)
      reads this
      ensures fm == Metrics(lib.textExtents(ActiveFile(active), size, s))
      ensures fm.ascent + fm.descent == fm.height
    {
      MeasuredIn(lib, Snapshot(), s)
    }

    /** The destructor: shut Fontconfig down, then release every cached face
        exactly once. */
    method Destroy()
      requires live && Valid()
      modifies this
      ensures !live && fonts == old(fonts) && active == old(active) && size == old(size)
      ensures |calls| == |old(calls)| + 1 + |fonts|
      ensures calls[..|old(calls)|] == old(calls) && calls[|old(calls)|] == Fini
      ensures forall j :: |old(calls)| < j < |calls| ==>
                calls[j].DestroyFontFace? && calls[j].face in fonts.Values
      ensures forall k :: k in fonts ==>
                multiset(calls[|old(calls)| + 1..])[DestroyFontFace(fonts[k])] == 1
    {
      calls := calls + [Fini];
      var released := ReleaseFaces(fonts);
      calls := calls + released;
      assert calls[|old(calls)| + 1..] == released;
      live := false;
    }
  }

  /** The destructor's loop over the cache: one Cairo release per cached face,
      each face released exactly once. */
  method ReleaseFaces(fonts: map<string, Face>) returns (log: seq<NativeCall>)
    requires forall k1, k2 :: k1 in fonts && k2 in fonts && k1 != k2 ==> fonts[k1].id != fonts[k2].id
    ensures |log| == |fonts|
    ensures forall j :: 0 <= j < |log| ==> log[j].DestroyFontFace? && log[j].face in fonts.Values
    ensures forall k :: k in fonts ==> multiset(log)[DestroyFontFace(fonts[k])] == 1
  {
    log := [];
    ghost var order: seq<string> := [];
    var rest := fonts.Keys;
    while rest != {}
      invariant rest <= fonts.Keys
      invariant |log| == |order| && |rest| + |order| == |fonts|
      invariant forall i :: 0 <= i < |order| ==>
                  order[i] in fonts && order[i] !in rest && log[i] == DestroyFontFace(fonts[order[i]])
      invariant forall i, j :: 0 <= i < j < |order| ==> order[i] != order[j]
      invariant forall k :: k in fonts && k !in rest ==> k in order
      decreases rest
    {
      var k :| k in rest;
      log := log + [DestroyFontFace(fonts[k])];
      order := order + [k];
      rest := rest - {k};
    }
    forall k | k in fonts
      ensures multiset(log)[DestroyFontFace(fonts[k])] == 1
    {
      ReleasedOnce(log, order, fonts, k);
    }
  }

  /** A release log that follows a duplicate-free list of keys of a cache with
      distinct faces names each face of those keys exactly once. */
  lemma {:induction false} ReleasedOnce(log: seq<NativeCall>, order: seq<string>, fonts: map<string, Face>, k: string)
    requires |log| == |order|
    requires forall i :: 0 <= i < |order| ==> order[i] in fonts && log[i] == DestroyFontFace(fonts[order[i]])
    requires forall i, j :: 0 <= i < j < |order| ==> order[i] != order[j]
    requires forall k1, k2 :: k1 in fonts && k2 in fonts && k1 != k2 ==> fonts[k1].id != fonts[k2].id
    requires k in fonts && k in order
    ensures multiset(log)[DestroyFontFace(fonts[k])] == 1
  {
    var n := |log|;
    var last := n - 1;
    assert log == log[..last] + [log[last]];
    if order[last] == k {
      assert k !in order[..last];
      forall i | 0 <= i < last ensures log[i] != DestroyFontFace(fonts[k]) {
        assert order[i] != k;
      }
      assert DestroyFontFace(fonts[k]) !in log[..last];
    } else {
      assert k in order[..last];
      ReleasedOnce(log[..last], order[..last], fonts, k);
      assert log[last] != DestroyFontFace(fonts[k]);
    }
  }

  /** The constructor: fails when Fontconfig or FreeType cannot be initialised. */
  method NewContext(lib: Library) returns (r: Result<CairoContext, Error>)
    ensures InitOutcome(lib).Fail? ==> r == Failure(InitOutcome(lib).error)
    ensures InitOutcome(lib).Pass? ==>
      r.Success? && fresh(r.value) && r.value.lib == lib && r.value.live && r.value.Valid()
      && r.value.Snapshot() == Initial()
  {
    if !lib.fcInit {
      return Failure(FontconfigInit);
    }
    if !lib.ftInit {
      return Failure(FreeTypeInit);
    }
    var cc := new CairoContext(lib);
    r := Success(cc);
  }
}
