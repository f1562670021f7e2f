/** Handles, error kinds and the native libraries (Cairo, FreeType, Fontconfig)
    that the binding calls into. The libraries are not modelled: every query
    they answer is a field of `Library`, a total function that the caller
    supplies, so a proof holds whatever the libraries answer. */
module Native {

  datatype Option<+T> = None | Some(value: T)

  datatype Outcome<+E> = Pass | Fail(error: E)

  datatype Result<+R, +E> = Success(value: R) | Failure(error: E)

  /** The conditions under which the binding stops the call with an error. */
  datatype Error =
    | FontconfigInit               // Fontconfig could not be initialised
    | FreeTypeInit                 // the FreeType library object could not be created
    | UnableToOpen(file: string)   // FreeType could not open the file at the index
    | UnableToHandle(file: string) // Cairo could not take ownership of the FreeType face
    | UnableToMatch                // Fontconfig matched no font file for a name
    | FileFontError(message: string) // a failure reported by the file-based context

  /** A font file and the index of a face inside it. */
  datatype FontFile = FontFile(file: string, index: int)

  /** What a Fontconfig match yields: the file path when the pattern carries one,
      and the integer left in the face-index slot. */
  datatype Pattern = Pattern(file: Option<string>, index: int)

  /** A FreeType face wrapped as a Cairo font face. `id` tells apart two loads
      of the same file; the Cairo face owns the FreeType face beneath it. */
  datatype Face = Face(id: nat, source: FontFile)

  /** Cairo's text extents record: bearings, ink box and advance of a string. */
  datatype TextExtents = TextExtents(
    xBearing: real, yBearing: real,
    width: real, height: real,
    xAdvance: real, yAdvance: real)

  /** The metrics the binding reports for a string. */
  datatype FontMetric = FontMetric(width: real, height: real, ascent: real, descent: real)

  /** The answers of the native libraries. Each is deterministic in its arguments.
      `textExtents` takes the active face's file (None: Cairo's default face),
      the font size and the string. */
  datatype Library = Library(
    fcInit: bool,                                     // FcInit succeeds
    ftInit: bool,                                     // FT_Init_FreeType succeeds
    findMatch: (string, bool, bool) -> Option<Pattern>, // best match for name, bold, italic
    findFontIndex: (string, bool, bool) -> int,       // face index for a style inside a file
    newFace: FontFile -> bool,                        // FT_New_Face succeeds
    setUserData: FontFile -> bool,                    // Cairo accepts the face's finalizer
    textExtents: (Option<FontFile>, real, string) -> TextExtents)

  /** The native calls whose effects the model keeps track of, in call order. */
  datatype NativeCall =
    | FindMatch(name: string, bold: bool, italic: bool)   // Fontconfig match for a name
    | FindFontIndex(file: string, bold: bool, italic: bool) // face index lookup in a file
    | NewFace(source: FontFile)                           // FreeType opens a face
    | DestroyFontFace(face: Face)                         // Cairo releases a font face
    | DoneFace(face: Face)                                // FreeType releases a face
    | Fini                                                // Fontconfig shuts down
}
