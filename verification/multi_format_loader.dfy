/**
 * `MultiFormatLoader`: picks one of the four format loaders from the file's
 * lower-cased suffix, or raises `ValueError` for any other suffix.
 */
module MultiFormatLoader {
  import opened Wrappers
  import opened Text
  import opened Domain
  import Paths

  /** The four loaders the multi-format loader holds, fixed at construction. */
  datatype LoaderKind = TextFileLoader | PdfLoader | MarkdownLoader | JsonLoader

  /** `MultiFormatLoader.get_supported_extensions()`. */
  function GetSupportedExtensions(): (exts: seq<string>)
    ensures |exts| == 5
    ensures forall i, j :: 0 <= i < j < |exts| ==> exts[i] != exts[j]
    ensures forall i :: 0 <= i < |exts| ==> |exts[i]| >= 2 && exts[i][0] == '.' && exts[i] == Lower(exts[i])
  {
    [".txt", ".pdf", ".md", ".markdown", ".json"]
  }

  /** The `if`/`elif` chain of `load` on an already lower-cased suffix. */
  function LoaderFor(extension: string): Option<LoaderKind>
  {
    if extension == ".txt" then Some(TextFileLoader)
    else if extension == ".pdf" then Some(PdfLoader)
    else if extension in [".md", ".markdown"] then Some(MarkdownLoader)
    else if extension == ".json" then Some(JsonLoader)
    else None
  }

  /** The extension `load` compares: `Path(file_path).suffix.lower()`. */
  function Extension(path: string): string
  {
    Lower(Paths.PathSuffix(path))
  }

  function UnsupportedFormat(extension: string): Error
  {
    ValueError("Unsupported file format: " + extension + ". " +
               "Supported formats: .txt, .pdf, .md, .markdown, .json")
  }

  /**
   * `MultiFormatLoader.load(file_path)`. `loaders(kind, path)` stands for what
   * the loader of that kind returns (or raises) for the path; exactly that one
   * loader's outcome is passed through unchanged.
   */
  function Load<D>(path: string, loaders: (LoaderKind, string) -> D): (r: Result<D, Error>)
    ensures r.Success? <==> Extension(path) in GetSupportedExtensions()
    ensures r.Success? ==> exists kind :: LoaderFor(Extension(path)) == Some(kind) && r.value == loaders(kind, path)
    ensures r.Failure? ==> r.error == UnsupportedFormat(Extension(path))
  {
    var extension := Extension(path);
    SupportedExtensionsAreDispatched(extension);
    match LoaderFor(extension)
    case Some(kind) => Success(loaders(kind, path))
    case None => Failure(UnsupportedFormat(extension))
  }

  /** The advertised extensions are exactly the suffixes `load` dispatches on. */
  lemma SupportedExtensionsAreDispatched(extension: string)
    ensures extension in GetSupportedExtensions() <==> LoaderFor(extension).Some?
  {
  }

  lemma LowerKeepsDots(s: string)
    ensures |Lower(s)| == |s|
    ensures forall i :: 0 <= i < |s| ==> (Lower(s)[i] == '.' <==> s[i] == '.')
  {
  }

  /** A name ending in a supported extension, in any letter case, has that extension's lower-case form as its suffix. */
  lemma SuffixOfName(stem: string, ext: string)
    requires stem != [] && Lower(ext) in GetSupportedExtensions()
    ensures Paths.Usable(stem + ext)
    ensures Lower(Paths.NameSuffix(stem + ext)) == Lower(ext)
  {
    var name := stem + ext;
    LowerKeepsDots(ext);
    assert ext[0] == '.' && '.' !in ext[1..];
    assert name != "" && name != ".";
    var i := Paths.RFind(name, '.');
    assert name[|stem|] == '.';
    assert forall k :: |stem| < k < |name| ==> name[k] == ext[k - |stem|];
    assert i == |stem|;
    assert name[i..] == ext;
  }

  /**
   * A file `dir/stem + ext` whose extension is a supported one in any ASCII
   * letter case (`.TXT`, `.Md`, ...) is dispatched exactly like the
   * lower-case extension, whatever directory it sits in.
   */
  lemma DispatchIgnoresCase<D>(dir: string, stem: string, ext: string, loaders: (LoaderKind, string) -> D)
    requires stem != [] && '/' !in stem + ext
    requires Lower(ext) in GetSupportedExtensions()
    ensures Extension(dir + "/" + stem + ext) == Lower(ext)
    ensures Load(dir + "/" + stem + ext, loaders) ==
      Success(loaders(LoaderFor(Lower(ext)).value, dir + "/" + stem + ext))
  {
    SuffixOfName(stem, ext);
    assert dir + "/" + stem + ext == dir + "/" + (stem + ext);
    Paths.PathNameUnderDirectory(dir, stem + ext);
  }

  /** The same for a bare file name `stem + ext`. */
  lemma BareNameDispatchIgnoresCase<D>(stem: string, ext: string, loaders: (LoaderKind, string) -> D)
    requires stem != [] && '/' !in stem + ext
    requires Lower(ext) in GetSupportedExtensions()
    ensures Extension(stem + ext) == Lower(ext)
    ensures Load(stem + ext, loaders) == Success(loaders(LoaderFor(Lower(ext)).value, stem + ext))
  {
    SuffixOfName(stem, ext);
    Paths.PathNameOfBareName(stem + ext);
  }

  /**
   * A file `dir/name` whose name has no dot after its first character
   * (`README`, `.txt`) has the empty suffix and is refused.
   */
  lemma NoSuffixIsRefused<D>(dir: string, name: string, loaders: (LoaderKind, string) -> D)
    requires name != "" && name != "." && '/' !in name
    requires '.' !in name[1..]
    ensures Extension(dir + "/" + name) == ""
    ensures Load(dir + "/" + name, loaders) == Failure(UnsupportedFormat(""))
  {
    Paths.PathNameUnderDirectory(dir, name);
    assert Lower("") == "";
  }

  /** The same for a bare name. */
  lemma BareNameNoSuffixIsRefused<D>(name: string, loaders: (LoaderKind, string) -> D)
    requires name != "" && name != "." && '/' !in name
    requires '.' !in name[1..]
    ensures Extension(name) == ""
    ensures Load(name, loaders) == Failure(UnsupportedFormat(""))
  {
    Paths.PathNameOfBareName(name);
    assert Lower("") == "";
  }
}
