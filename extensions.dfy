/** The extension helpers with logic of their own: the file-extension split,
    the MIME-type lookup built on it, the visibility mapping of a view, and
    the zero-size guard of the bitmap capture. */
module Extensions {
  import opened KotlinTypes

  // ---------------------------------------------------------------------
  // File extension and MIME type
  // ---------------------------------------------------------------------

  /** `String.lastIndexOf` for a one-character needle: the index of the
      last occurrence of `c` in `s`, or -1 when there is none. */
  function LastIndexOf(s: string, c: char): (i: int)
    ensures -1 <= i < |s|
    ensures 0 <= i ==> s[i] == c
    ensures forall k :: i < k < |s| ==> s[k] != c
  {
    if |s| == 0 then -1
    else if s[|s| - 1] == c then |s| - 1
    else LastIndexOf(s[..|s| - 1], c)
  }

  /** The text after the last '.' of the file name. Without a '.', the
      index is -1 and the whole name is returned. */
  function GetFileExt(fileName: string): (ext: string)
    ensures |ext| <= |fileName| && ext == fileName[|fileName| - |ext|..]
    ensures '.' !in ext
    ensures '.' in fileName ==> |ext| < |fileName| && fileName[|fileName| - |ext| - 1] == '.'
    ensures '.' !in fileName ==> ext == fileName
  {
    fileName[LastIndexOf(fileName, '.') + 1..]
  }

  /** Whatever comes before the last '.', the extension is exactly the
      dot-free text after it. */
  lemma {:induction false} FileExtAfterLastDot(prefix: string, ext: string)
    requires '.' !in ext
    ensures GetFileExt(prefix + "." + ext) == ext
  {
    var s := prefix + "." + ext;
    var r := GetFileExt(s);
    assert s[|prefix|] == '.';
    assert r == s[|s| - |ext|..] == ext;
  }

  /** The split takes the last '.' and is not path-aware. */
  lemma FileExtOfDirectoryWithDot()
    ensures GetFileExt("a.d/file") == "d/file"
  {
    assert "a.d/file" == "a" + "." + "d/file";
    FileExtAfterLastDot("a", "d/file");
  }

  /** Only the last '.' counts. */
  lemma FileExtOfDoubleExtension()
    ensures GetFileExt("x.tar.gz") == "gz"
  {
    assert "x.tar.gz" == "x.tar" + "." + "gz";
    FileExtAfterLastDot("x.tar", "gz");
  }

  /** A hidden file's name after the leading '.' is its extension. */
  lemma FileExtOfHiddenFile()
    ensures GetFileExt(".bashrc") == "bashrc"
  {
    assert ".bashrc" == "" + "." + "bashrc";
    FileExtAfterLastDot("", "bashrc");
  }

  /** A name ending in '.' has the empty extension. */
  lemma FileExtOfTrailingDot()
    ensures GetFileExt("notes.") == ""
  {
    assert "notes." == "notes" + "." + "";
    FileExtAfterLastDot("notes", "");
  }

  /** The platform's extension-to-MIME table, abstracted: a partial map,
      and whether the lookup raises an exception. */
  datatype MimeTypeMap = MimeTypeMap(table: map<string, string>, lookupThrows: bool)

  /** The MIME type of the file name's extension, or null when the table
      has no entry for it or the lookup raises (the exception is caught). */
  function GetMimeType(fileName: string, mimeTypes: MimeTypeMap): (r: Option<string>)
    ensures r.Some? <==> !mimeTypes.lookupThrows && GetFileExt(fileName) in mimeTypes.table
    ensures r.Some? ==> r.value == mimeTypes.table[GetFileExt(fileName)]
  {
    if mimeTypes.lookupThrows then None
    else if GetFileExt(fileName) in mimeTypes.table then Some(mimeTypes.table[GetFileExt(fileName)])
    else None
  }

  /** Names with the same text after their last '.' get the same MIME
      type: for any prefix, the type is the table's entry for the
      extension. */
  lemma {:induction false} MimeTypeOfExtension(prefix: string, ext: string, mimeTypes: MimeTypeMap)
    requires '.' !in ext
    requires !mimeTypes.lookupThrows
    ensures GetMimeType(prefix + "." + ext, mimeTypes) ==
              if ext in mimeTypes.table then Some(mimeTypes.table[ext]) else None
  {
    FileExtAfterLastDot(prefix, ext);
  }

  // ---------------------------------------------------------------------
  // Views
  // ---------------------------------------------------------------------

  datatype Visibility = Visible | Invisible | Gone

  /** The bitmap configuration used by the capture. */
  datatype BitmapConfig = ARGB_8888

  /** A bitmap, as far as its size and configuration go; its pixels are
      drawn by the platform. */
  datatype Bitmap = Bitmap(width: nat, height: nat, config: BitmapConfig)

  /** The visibility `visible(value)` assigns: shown or gone, never merely
      invisible. */
  function VisibilityFor(value: bool): (v: Visibility)
    ensures v != Invisible
    ensures v == Visible <==> value
    ensures v == Gone <==> !value
  {
    if value then Visible else Gone
  }

  /** A view's parent, as far as the cast to `ViewGroup` goes: none (a
      detached view), a view group, or some other parent (the root view's
      parent is not a view group). */
  datatype Parent = NoParent | ViewGroupParent | OtherParent

  /** What the cast `parent as ViewGroup` raises, if anything: a null parent
      cannot be cast to the non-null type, and a parent of another class
      fails the class cast. */
  function ViewGroupCastFailure(parent: Parent): (e: Option<Throwable>)
    ensures e.None? <==> parent == ViewGroupParent
    ensures parent == NoParent ==> e.Some? && e.value.className == "java.lang.NullPointerException"
    ensures parent == OtherParent ==> e.Some? && e.value.className == "java.lang.ClassCastException"
  {
    match parent
    case ViewGroupParent => None
    case NoParent =>
      Some(Throwable("java.lang.NullPointerException",
                     Some("null cannot be cast to non-null type android.view.ViewGroup")))
    case OtherParent => Some(Throwable("java.lang.ClassCastException", None))
  }

  /** A view: its visibility, its parent and its laid-out size. */
  class View {
    var visibility: Visibility
    const parent: Parent
    var width: nat
    var height: nat

    constructor (visibility: Visibility, parent: Parent, width: nat, height: nat)
      ensures this.visibility == visibility && this.parent == parent
      ensures this.width == width && this.height == height
    {
      this.visibility := visibility;
      this.parent := parent;
      this.width := width;
      this.height := height;
    }

    /** `visible(value)`. When the caller passes no `viewGroup`, its default
        `parent as ViewGroup` is evaluated first, whether or not a transition
        is given; if that cast raises, the exception propagates and the
        visibility is not written. Otherwise only the visibility is
        assigned. */
    method SetVisible(value: bool, viewGroupGiven: bool) returns (thrown: Option<Throwable>)
      modifies this`visibility
      ensures thrown == (if viewGroupGiven then None else ViewGroupCastFailure(parent))
      ensures thrown.None? <==> viewGroupGiven || parent == ViewGroupParent
      ensures thrown.None? ==> visibility == VisibilityFor(value)
      ensures thrown.Some? ==> visibility == old(visibility)
    {
      if !viewGroupGiven {
        thrown := ViewGroupCastFailure(parent);
        if thrown.Some? {
          return;
        }
      }
      thrown := None;
      visibility := if value then Visible else Gone;
    }

    /** A client that hides a view with the defaults and then shows it with
        an explicit view group: a detached view raises on the first call and
        stays as it was, and the second call shows any view. */
    static method HideThenShow(v: View) returns (first: Option<Throwable>, second: Option<Throwable>)
      modifies v`visibility
      ensures first.Some? <==> v.parent != ViewGroupParent
      ensures second.None? && v.visibility == Visible
    {
      first := v.SetVisible(false, false);
      second := v.SetVisible(true, true);
    }

    /** The capture's guard: a view with no width or no height gives null;
        otherwise a bitmap of the view's size. */
    function GetAsBitmap(): (b: Option<Bitmap>)
      reads this
      ensures b.None? <==> width == 0 || height == 0
      ensures b.Some? ==> b.value.width == width && b.value.height == height
      ensures b.Some? ==> b.value.width > 0 && b.value.height > 0
    {
      if width == 0 || height == 0 then None
      else Some(Bitmap(width, height, ARGB_8888))
    }
  }
}
