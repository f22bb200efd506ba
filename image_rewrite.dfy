/** What `process_markdown_images` and `process_html_images` compute, as
    functions of the input text and the disk: each nested replacer, the
    `re.sub` that drives it, the candidate directories, the image files
    found in them, the marker pass and the fallback section. The state
    threaded through a pass holds the disk, the next fresh-name index (the
    model of successive `uuid4().hex` values), the `processed_images_count`
    counter and the marker pass's `img_index`. */
module ImageRewrite {
  import opened Wrappers
  import opened Strings
  import opened Paths
  import opened Percent
  import opened Sorting
  import opened Disk
  import opened ImageScan

  datatype Dialect = MarkdownDoc | HtmlDoc

  /** The inputs a call fixes: the task id, `output_base_name`,
      `output_dir_path`, the working directory `Path.resolve` starts from,
      `IMAGES_DIR`, the base64 decoder (None: `binascii.Error`) and the
      source of `uuid4().hex` values, indexed by how many were drawn. */
  datatype Env = Env(taskId: string, base: string, outDir: string, cwd: string, imagesDir: string,
                     decode: string -> Option<seq<Byte>>, hex: nat -> string)

  datatype St = St(fs: FsState, cursor: nat, count: nat, index: nat)

  /** `IMAGES_DIR / output_base_name`. */
  function DestDir(env: Env): string
  {
    Join(env.imagesDir, env.base)
  }

  /** `f"{task_id}_{uuid4().hex}{ext}"` for the `k`-th drawn value. */
  function MintedName(env: Env, k: nat, ext: string): string
  {
    env.taskId + "_" + env.hex(k) + ext
  }

  /** Where the `k`-th drawn name with extension `ext` is written. */
  function Dest(env: Env, k: nat, ext: string): string
  {
    Join(DestDir(env), MintedName(env, k, ext))
  }

  /** `/static/images/<quote(base)>/<quote(name)>` with `safe=''`. */
  function WebPath(env: Env, name: string): (w: string)
    ensures StartsWith(w, "/static/images/")
  {
    "/static/images/" + Quote(env.base) + "/" + Quote(name)
  }

  function EscapeMarkdownAlt(alt: string): string
  {
    ReplaceChar(alt, ']', "\\]")
  }

  function EscapeHtmlAlt(alt: string): string
  {
    ReplaceChar(alt, '"', "&quot;")
  }

  /** The replacement text of a relocated image. */
  function Link(d: Dialect, alt: string, web: string): string
  {
    match d
    case MarkdownDoc => "![" + EscapeMarkdownAlt(alt) + "](" + web + ")"
    case HtmlDoc => "<img src=\"" + web + "\" alt=\"" + EscapeHtmlAlt(alt) + "\">"
  }

  // ---------------------------------------------------------------- discovery

  /** The non-hidden subdirectories among `names`, in listing order. */
  function VisibleSubdirs(fs: FsState, dir: string, names: seq<string>): (r: seq<string>)
    ensures |r| <= |names|
    ensures forall i :: 0 <= i < |r| ==> fs.IsDir(r[i])
  {
    if names == [] then []
    else
      var p := Join(dir, names[0]);
      (if fs.IsDir(p) && !StartsWith(names[0], ".") then [p] else []) + VisibleSubdirs(fs, dir, names[1..])
  }

  /** `possible_img_dirs`: the three named directories, then every
      non-hidden subdirectory of the output directory; nothing is removed
      when the lists overlap. */
  function CandidateDirs(fs: FsState, env: Env): (r: seq<string>)
    ensures |r| >= 3
    ensures r[0] == Join(env.outDir, env.base)
    ensures r[1] == Join(env.outDir, env.base + "_images")
    ensures r[2] == Join(env.outDir, "images")
    ensures r[3..] == VisibleSubdirs(fs, env.outDir, fs.Entries(env.outDir))
  {
    [Join(env.outDir, env.base), Join(env.outDir, env.base + "_images"), Join(env.outDir, "images")]
      + VisibleSubdirs(fs, env.outDir, fs.Entries(env.outDir))
  }

  const ImageExtensions: seq<string> := [".png", ".jpg", ".jpeg", ".gif", ".webp", ".svg"]

  /** `dir.glob("*" + suffix)`: the entries whose name ends with `suffix`,
      compared case-sensitively. */
  function Glob(fs: FsState, dir: string, names: seq<string>, suffix: string): (r: seq<string>)
    ensures |r| <= |names|
    ensures forall i :: 0 <= i < |r| ==> exists j :: 0 <= j < |names| && r[i] == Join(dir, names[j]) && EndsWith(names[j], suffix)
  {
    if names == [] then []
    else
      var rest := Glob(fs, dir, names[1..], suffix);
      var head := if EndsWith(names[0], suffix) then [Join(dir, names[0])] else [];
      var r := head + rest;
      assert forall i :: |head| <= i < |r| ==> r[i] == rest[i - |head|];
      r
  }

  /** Both globs of every extension, in the order of the list: the lower-case
      pattern and then its `upper()` form. */
  function GlobAll(fs: FsState, dir: string, exts: seq<string>): seq<string>
  {
    if exts == [] then []
    else
      var names := fs.Entries(dir);
      Glob(fs, dir, names, exts[0]) + Glob(fs, dir, names, Upper(exts[0])) + GlobAll(fs, dir, exts[1..])
  }

  /** ASCII `str.upper()`. */
  function Upper(s: string): (r: string)
    ensures |r| == |s|
  {
    if s == [] then [] else [if 'a' <= s[0] <= 'z' then (s[0] as int - 32) as char else s[0]] + Upper(s[1..])
  }

  /** `all_image_files`: the image globs of every existing candidate, in
      candidate order. */
  function ImageFiles(fs: FsState, dirs: seq<string>): seq<string>
  {
    if dirs == [] then []
    else (if fs.IsDir(dirs[0]) then GlobAll(fs, dirs[0], ImageExtensions) else []) + ImageFiles(fs, dirs[1..])
  }

  // ---------------------------------------------------------------- resolution

  /** `img_dir / basename(rel)` for every candidate that is a directory now. */
  function InDirs(fs: FsState, dirs: seq<string>, name: string): (r: seq<string>)
    ensures |r| <= |dirs|
  {
    if dirs == [] then []
    else (if fs.IsDir(dirs[0]) then [Join(dirs[0], name)] else []) + InDirs(fs, dirs[1..], name)
  }

  /** `source_paths_to_try`, in order. */
  function SourceCandidates(fs: FsState, env: Env, dirs: seq<string>, rel: string): (r: seq<string>)
    ensures |r| >= 2 && r[0] == Join(env.outDir, rel) && r[1] == Join(env.cwd, rel)
    ensures r[2..] == InDirs(fs, dirs, Name(rel))
  {
    [Join(env.outDir, rel), Join(env.cwd, rel)] + InDirs(fs, dirs, Name(rel))
  }

  /** The first path of `tries` that is an existing file. */
  function FirstFile(fs: FsState, tries: seq<string>): (r: Option<string>)
    ensures r.None? <==> forall i :: 0 <= i < |tries| ==> !fs.IsFile(tries[i])
    ensures r.Some? ==> exists i :: 0 <= i < |tries| && tries[i] == r.value && fs.IsFile(r.value)
                          && forall j :: 0 <= j < i ==> !fs.IsFile(tries[j])
  {
    if tries == [] then None
    else if fs.IsFile(tries[0]) then Some(tries[0])
    else
      var r := FirstFile(fs, tries[1..]);
      assert forall i :: 1 <= i < |tries| ==> tries[i] == tries[1..][i - 1];
      r
  }

  // ---------------------------------------------------------------- replacers

  /** `replace_base64_img` (and its no-alt twin): decode, write the bytes
      under a fresh name, link to it; the matched text stays on a decode or
      write error. A name is drawn as soon as the data decodes. */
  function ReplaceDataUri(d: Dialect, env: Env, st: St, matched: string, alt: string, imgType: string, data: string): (r: (string, St))
    ensures env.decode(data).None? ==> r == (matched, st)
  {
    match env.decode(data)
    case None => (matched, st)
    case Some(bytes) =>
      var name := MintedName(env, st.cursor, "." + imgType);
      var w := WriteFile(st.fs, Join(DestDir(env), name), Blob(bytes));
      if w.0 then (Link(d, alt, WebPath(env, name)), St(w.1, st.cursor + 1, st.count + 1, st.index))
      else (matched, st.(cursor := st.cursor + 1))
  }

  /** The copy step shared by the relative, marker and fallback replacers:
      draw a name with the source's suffix and `shutil.copy2` the source to
      it inside the image directory. The name is drawn whether or not the
      copy succeeds. */
  datatype Moved = Moved(ok: bool, name: string, st: St)

  function Relocate(env: Env, src: string, st: St): (r: Moved)
    ensures r.name == MintedName(env, st.cursor, Suffix(Name(src)))
    ensures r.st.cursor == st.cursor + 1 && r.st.index == st.index
  {
    var name := MintedName(env, st.cursor, Suffix(Name(src)));
    var c := CopyFile(st.fs, src, Join(DestDir(env), name));
    Moved(c.0, name, if c.0 then St(c.1, st.cursor + 1, st.count + 1, st.index) else st.(cursor := st.cursor + 1))
  }

  /** The copy succeeds exactly when the source is a file and the minted
      destination is writable; then the destination holds the source's
      bytes and the count grows by one, and otherwise only a name was
      drawn. */
  lemma RelocateOutcome(env: Env, src: string, st: St)
    ensures var r := Relocate(env, src, st);
            && r.ok == (st.fs.IsFile(src) && st.fs.Writable(Join(DestDir(env), r.name)))
            && (r.ok ==> r.st.fs.files == st.fs.files[Join(DestDir(env), r.name) := st.fs.files[src]]
                         && r.st.fs.unwritable == st.fs.unwritable && r.st.fs.dirs.Keys == st.fs.dirs.Keys
                         && r.st.count == st.count + 1)
            && (!r.ok ==> r.st == st.(cursor := st.cursor + 1))
  {
  }

  /** `replace_std_img` (and its no-alt twin): copy the first existing
      source candidate under a fresh name and link to it; the matched text
      stays when nothing is found (no name is drawn) or the copy fails. */
  function ReplaceRelative(d: Dialect, env: Env, dirs: seq<string>, st: St, matched: string, alt: string, rel: string): (r: (string, St))
    ensures FirstFile(st.fs, SourceCandidates(st.fs, env, dirs, rel)).None? ==> r == (matched, st)
  {
    match FirstFile(st.fs, SourceCandidates(st.fs, env, dirs, rel))
    case None => (matched, st)
    case Some(src) =>
      var m := Relocate(env, src, st);
      (if m.ok then Link(d, alt, WebPath(env, m.name)) else matched, m.st)
  }

  /** `replace_comment_img`: the marker takes the image at `img_index`,
      which advances whether or not the copy succeeds; with the images used
      up the marker stays. */
  function ReplaceMarker(d: Dialect, env: Env, images: seq<string>, st: St, matched: string): (r: (string, St))
    ensures st.index >= |images| ==> r == (matched, st)
    ensures st.index < |images| ==> r.1.index == st.index + 1 && r.1.cursor == st.cursor + 1
  {
    if st.index >= |images| then (matched, st)
    else TakeImage(d, env, images[st.index], st.(index := st.index + 1), matched)
  }

  /** A marker while images remain: `src` is the next image, relocated and
      linked under its stem. */
  function TakeImage(d: Dialect, env: Env, src: string, st: St, matched: string): (r: (string, St))
  {
    var m := Relocate(env, src, st);
    (if m.ok then Link(d, Stem(Name(src)), WebPath(env, m.name)) else matched, m.st)
  }

  /** What a pass knows besides the text: the dialect, the call's inputs,
      the candidate directories and the (sorted) image files. */
  datatype Ctx = Ctx(dialect: Dialect, env: Env, dirs: seq<string>, images: seq<string>)

  /** The replacer a pattern is substituted with, applied to the match `h`
      found at `p`; tags without an alt attribute get the alt "image". */
  function Replace(pat: Pattern, ctx: Ctx, s: string, p: nat, h: Hit, st: St): (r: (string, St))
    requires p < h.end <= |s|
  {
    var matched := s[p..h.end];
    match pat
    case MdDataUri => ReplaceDataUri(ctx.dialect, ctx.env, st, matched, h.alt, h.imgType, h.data)
    case HtmlDataUriAlt => ReplaceDataUri(ctx.dialect, ctx.env, st, matched, h.alt, h.imgType, h.data)
    case HtmlDataUriNoAlt => ReplaceDataUri(ctx.dialect, ctx.env, st, matched, "image", h.imgType, h.data)
    case MdRelative => ReplaceRelative(ctx.dialect, ctx.env, ctx.dirs, st, matched, h.alt, h.src)
    case HtmlRelativeAlt => ReplaceRelative(ctx.dialect, ctx.env, ctx.dirs, st, matched, h.alt, h.src)
    case HtmlRelativeNoAlt => ReplaceRelative(ctx.dialect, ctx.env, ctx.dirs, st, matched, "image", h.src)
    case Marker => ReplaceMarker(ctx.dialect, ctx.env, ctx.images, st, matched)
  }

  /** `re.sub(pat, replacer, s[p..])`: scan left to right; at a match emit
      the replacement and continue after it, otherwise copy one character. */
  function Sub(pat: Pattern, ctx: Ctx, s: string, p: nat, st: St): (r: (string, St))
    requires p <= |s|
    decreases |s| - p
  {
    if p == |s| then ("", st)
    else
      match MatchAt(pat, s, p)
      case Some(h) =>
        var one := Replace(pat, ctx, s, p, h, st);
        var rest := Sub(pat, ctx, s, h.end, one.1);
        (one.0 + rest.0, rest.1)
      case None =>
        var rest := Sub(pat, ctx, s, p + 1, st);
        ([s[p]] + rest.0, rest.1)
  }

  // ---------------------------------------------------------------- fallback

  function FallbackHeading(d: Dialect): string
  {
    match d
    case MarkdownDoc => "\n\n## 圖片\n\n"
    case HtmlDoc => "\n\n<h2>圖片</h2>\n\n"
  }

  function FallbackEntry(d: Dialect, alt: string, web: string): string
  {
    match d
    case MarkdownDoc => Link(d, alt, web) + "\n\n"
    case HtmlDoc => "<p>" + Link(d, alt, web) + "</p>\n\n"
  }

  /** The fallback loop: one entry per image whose copy succeeds; a name is
      drawn for every image. Returns the appended text. */
  function Fallback(d: Dialect, env: Env, images: seq<string>, from: nat, st: St): (r: (string, St))
    decreases |images| - from
  {
    if from >= |images| then ("", st)
    else
      var one := FallbackOne(d, env, images[from], st);
      var rest := Fallback(d, env, images, from + 1, one.1);
      (one.0 + rest.0, rest.1)
  }

  /** One image of the fallback loop: its entry ("" when the copy fails). */
  function FallbackOne(d: Dialect, env: Env, src: string, st: St): (r: (string, St))
  {
    var m := Relocate(env, src, st);
    (if m.ok then FallbackEntry(d, Stem(Name(src)), WebPath(env, m.name)) else "", m.st)
  }

  // ---------------------------------------------------------------- whole call

  /** The text returned (or the exception that escaped), the disk after the
      call, the fresh-name index after the call and `processed_images_count`. */
  datatype Outcome = Outcome(text: Result<string, string>, fs: FsState, cursor: nat, count: nat)

  /** The data-URI passes: one for markdown; with-alt then no-alt for HTML. */
  function DataUriPasses(ctx: Ctx, s: string, st: St): (string, St)
  {
    match ctx.dialect
    case MarkdownDoc => Sub(MdDataUri, ctx, s, 0, st)
    case HtmlDoc =>
      var a := Sub(HtmlDataUriAlt, ctx, s, 0, st);
      Sub(HtmlDataUriNoAlt, ctx, a.0, 0, a.1)
  }

  /** The relative-path passes: one for markdown; with-alt then no-alt for HTML. */
  function RelativePasses(ctx: Ctx, s: string, st: St): (string, St)
  {
    match ctx.dialect
    case MarkdownDoc => Sub(MdRelative, ctx, s, 0, st)
    case HtmlDoc =>
      var a := Sub(HtmlRelativeAlt, ctx, s, 0, st);
      Sub(HtmlRelativeNoAlt, ctx, a.0, 0, a.1)
  }

  /** The marker pass, run only when the original text has a marker and some
      image was found; the images are sorted by name first, and that order
      is the one the fallback then walks. */
  function MarkerPass(ctx: Ctx, content: string, s: string, st: St): (r: (string, St, seq<string>))
  {
    if Contains(content, MarkerText) && ctx.images != [] then
      var sorted := SortByName(ctx.images);
      var m := Sub(Marker, ctx.(images := sorted), s, 0, st);
      (m.0, m.1, sorted)
    else (s, st, ctx.images)
  }

  /** The whole call. An `Err` text stands for an exception escaping it: the
      image directory cannot be created, or the output directory cannot be
      listed; the disk keeps what was written before. */
  function Rewrite(d: Dialect, content: string, mode: string, env: Env, fs: FsState, cursor: nat): (r: Outcome)
    ensures mode != "referenced" ==> r == Outcome(Ok(content), fs, cursor, 0)
    ensures mode == "referenced" && fs.IsFile(DestDir(env)) ==> r.text.Err? && r.fs == fs && r.cursor == cursor
  {
    if mode != "referenced" then Outcome(Ok(content), fs, cursor, 0)
    else
      var mk := MakeDir(fs, DestDir(env));
      if !mk.0 then Outcome(Err("cannot create " + DestDir(env)), fs, cursor, 0)
      else
        var ctx0 := Ctx(d, env, [], []);
        var a := DataUriPasses(ctx0, content, St(mk.1, cursor, 0, 0));
        if !a.1.fs.IsDir(env.outDir) then Outcome(Err("cannot list " + env.outDir), a.1.fs, a.1.cursor, a.1.count)
        else
          var dirs := CandidateDirs(a.1.fs, env);
          var ctx := Ctx(d, env, dirs, ImageFiles(a.1.fs, dirs));
          var b := RelativePasses(ctx, a.0, a.1);
          var m := MarkerPass(ctx, content, b.0, b.1);
          if m.1.count == 0 && ctx.images != [] then
            var f := Fallback(d, env, m.2, 0, m.1);
            Outcome(Ok(m.0 + FallbackHeading(d) + f.0), f.1.fs, f.1.cursor, f.1.count)
          else Outcome(Ok(m.0), m.1.fs, m.1.cursor, m.1.count)
  }
}
