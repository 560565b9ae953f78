/**
 * How the document pages classify a file by its name:
 * `fileName.toLowerCase().split('.').pop()`, the lowercased text after the
 * last dot (the whole lowercased name when there is no dot), and the glyphs
 * the pages show for it.
 */
module FileKinds {
  import opened Wrappers
  import opened Text

  /** The emoji glyphs of the icon switches: 📄, 📝, 📃 and 🖼️. */
  datatype Glyph = Page | Memo | PageCurl | Picture

  /** `!fileName` fails: the name is absent or empty. */
  predicate Present(name: Option<string>) {
    name.Some? && name.value != ""
  }

  /** `fileName.toLowerCase().split('.').pop()` */
  function Extension(fileName: string): (r: string)
    ensures '.' !in r
    ensures EndsWith(Lower(fileName), r)
    ensures '.' !in fileName ==> r == Lower(fileName)
  {
    var l := Lower(fileName);
    match LastIndexOf(l, '.')
    case None => l
    case Some(k) => l[k + 1..]
  }

  /** Only `.` lowercases to `.`. */
  lemma DotsKept(s: string)
    ensures '.' in Lower(s) <==> '.' in s
  {
    if '.' in s {
      var i :| 0 <= i < |s| && s[i] == '.';
      assert Lower(s)[i] == '.';
    }
  }

  /** A name ending in `.ext` (checked case-insensitively) has the lowercased `ext` as its extension. */
  lemma {:induction false} ExtensionOfSuffix(fileName: string, ext: string)
    requires '.' !in ext
    requires EndsWith(Lower(fileName), "." + Lower(ext))
    ensures Extension(fileName) == Lower(ext)
  {
    var l := Lower(fileName);
    var e := Lower(ext);
    DotsKept(ext);
    var m := |l| - |e| - 1;
    assert l[m..] == "." + e;
    assert l[m] == '.';
    match LastIndexOf(l, '.')
    case None =>
      assert false;
    case Some(k) =>
      if k < m {
        assert false;
      } else if k > m {
        assert false;
      }
      assert l[k + 1..] == e;
  }

  /** `base.ext`: the extension is the lowercased `ext`, whatever dots `base` holds. */
  lemma ExtensionOfName(base: string, ext: string)
    requires '.' !in ext
    ensures Extension(base + "." + ext) == Lower(ext)
  {
    LowerAppend(base + ".", ext);
    LowerAppend(base, ".");
    ExtensionOfSuffix(base + "." + ext, ext);
  }

  /** The extension does not depend on the case of the name. */
  lemma ExtensionIgnoresCase(fileName: string)
    ensures Extension(Lower(fileName)) == Extension(fileName)
  {
    LowerIdempotent(fileName);
  }
}
