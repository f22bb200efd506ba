/** `process_markdown_images` and `process_html_images` as they run: the
    replacers change the disk and draw names as side effects, `re.sub`
    rebuilds the text match by match, and the fallback grows the text in a
    loop. Each method is proved to compute exactly what the corresponding
    function of `ImageRewrite` specifies. */
module ImageService {
  import opened Wrappers
  import opened Strings
  import opened Paths
  import opened Sorting
  import opened Disk
  import opened ImageScan
  import opened ImageRewrite

  /** The successive values of `uuid4().hex`: the `k`-th value drawn is
      `hex(k)`. */
  class NameSupply {
    const hex: nat -> string
    var next: nat

    constructor (hex: nat -> string, start: nat)
      ensures this.hex == hex && next == start
    {
      this.hex := hex;
      next := start;
    }

    method Fresh() returns (h: string)
      modifies this
      ensures h == hex(old(next)) && next == old(next) + 1
    {
      h := hex(next);
      next := next + 1;
    }
  }

  /** The copy step of the relative, marker and fallback replacers. */
  method RelocateM(env: Env, disk: FileSystem, names: NameSupply, src: string, count: nat, index: nat)
    returns (ok: bool, name: string, count': nat)
    requires names.hex == env.hex
    modifies disk, names
    ensures Moved(ok, name, St(disk.State(), names.next, count', index))
            == Relocate(env, src, St(old(disk.State()), old(names.next), count, index))
  {
    var h := names.Fresh();
    name := env.taskId + "_" + h + Suffix(Name(src));
    ok := disk.Copy(src, Join(DestDir(env), name));
    count' := if ok then count + 1 else count;
  }

  /** The loop over `source_paths_to_try` that stops at the first file. */
  method FindSource(disk: FileSystem, tries: seq<string>) returns (found: Option<string>)
    ensures found == FirstFile(disk.State(), tries)
  {
    var i := 0;
    while i < |tries|
      invariant 0 <= i <= |tries|
      invariant FirstFile(disk.State(), tries[i..]) == FirstFile(disk.State(), tries)
    {
      if disk.State().IsFile(tries[i]) {
        return Some(tries[i]);
      }
      assert tries[i..][1..] == tries[i + 1..];
      i := i + 1;
    }
    return None;
  }

  method ReplaceDataUriM(d: Dialect, env: Env, disk: FileSystem, names: NameSupply, count: nat, index: nat,
                         matched: string, alt: string, imgType: string, data: string)
    returns (text: string, count': nat)
    requires names.hex == env.hex
    modifies disk, names
    ensures (text, St(disk.State(), names.next, count', index))
            == ReplaceDataUri(d, env, St(old(disk.State()), old(names.next), count, index), matched, alt, imgType, data)
  {
    match env.decode(data)
    case None =>
      text, count' := matched, count;
    case Some(bytes) =>
      var h := names.Fresh();
      var name := env.taskId + "_" + h + ("." + imgType);
      var ok := disk.Write(Join(DestDir(env), name), Blob(bytes));
      if ok {
        text, count' := Link(d, alt, WebPath(env, name)), count + 1;
      } else {
        text, count' := matched, count;
      }
  }

  method ReplaceRelativeM(d: Dialect, env: Env, dirs: seq<string>, disk: FileSystem, names: NameSupply, count: nat, index: nat,
                          matched: string, alt: string, rel: string)
    returns (text: string, count': nat)
    requires names.hex == env.hex
    modifies disk, names
    ensures (text, St(disk.State(), names.next, count', index))
            == ReplaceRelative(d, env, dirs, St(old(disk.State()), old(names.next), count, index), matched, alt, rel)
  {
    var found := FindSource(disk, SourceCandidates(disk.State(), env, dirs, rel));
    match found
    case None =>
      text, count' := matched, count;
    case Some(src) =>
      var ok, name;
      ok, name, count' := RelocateM(env, disk, names, src, count, index);
      text := if ok then Link(d, alt, WebPath(env, name)) else matched;
  }

  method ReplaceMarkerM(d: Dialect, env: Env, images: seq<string>, disk: FileSystem, names: NameSupply, count: nat, index: nat,
                        matched: string)
    returns (text: string, count': nat, index': nat)
    requires names.hex == env.hex
    modifies disk, names
    ensures (text, St(disk.State(), names.next, count', index'))
            == ReplaceMarker(d, env, images, St(old(disk.State()), old(names.next), count, index), matched)
  {
    if index < |images| {
      var src := images[index];
      MarkerTakes(d, env, images, St(old(disk.State()), old(names.next), count, index), matched);
      index' := index + 1;
      text, count' := TakeImageM(d, env, src, disk, names, count, index', matched);
    } else {
      text, count', index' := matched, count, index;
    }
  }

  lemma MarkerTakes(d: Dialect, env: Env, images: seq<string>, st: St, matched: string)
    requires st.index < |images|
    ensures ReplaceMarker(d, env, images, st, matched) == TakeImage(d, env, images[st.index], st.(index := st.index + 1), matched)
  {
  }

  /** A marker while images remain: relocate the next image and link it
      under its stem. */
  method TakeImageM(d: Dialect, env: Env, src: string, disk: FileSystem, names: NameSupply, count: nat, index: nat,
                    matched: string)
    returns (text: string, count': nat)
    requires names.hex == env.hex
    modifies disk, names
    ensures (text, St(disk.State(), names.next, count', index))
            == TakeImage(d, env, src, St(old(disk.State()), old(names.next), count, index), matched)
  {
    var ok, name;
    ok, name, count' := RelocateM(env, disk, names, src, count, index);
    text := if ok then Link(d, Stem(Name(src)), WebPath(env, name)) else matched;
  }

  /** The replacer of a pattern, applied to the match `h` found at `p`. */
  method ReplaceM(pat: Pattern, ctx: Ctx, s: string, p: nat, h: Hit, disk: FileSystem, names: NameSupply, count: nat, index: nat)
    returns (text: string, count': nat, index': nat)
    requires p < h.end <= |s|
    requires names.hex == ctx.env.hex
    modifies disk, names
    ensures (text, St(disk.State(), names.next, count', index'))
            == Replace(pat, ctx, s, p, h, St(old(disk.State()), old(names.next), count, index))
  {
    var matched := s[p..h.end];
    index' := index;
    match pat
    case MdDataUri =>
      text, count' := ReplaceDataUriM(ctx.dialect, ctx.env, disk, names, count, index, matched, h.alt, h.imgType, h.data);
    case HtmlDataUriAlt =>
      text, count' := ReplaceDataUriM(ctx.dialect, ctx.env, disk, names, count, index, matched, h.alt, h.imgType, h.data);
    case HtmlDataUriNoAlt =>
      text, count' := ReplaceDataUriM(ctx.dialect, ctx.env, disk, names, count, index, matched, "image", h.imgType, h.data);
    case MdRelative =>
      text, count' := ReplaceRelativeM(ctx.dialect, ctx.env, ctx.dirs, disk, names, count, index, matched, h.alt, h.src);
    case HtmlRelativeAlt =>
      text, count' := ReplaceRelativeM(ctx.dialect, ctx.env, ctx.dirs, disk, names, count, index, matched, h.alt, h.src);
    case HtmlRelativeNoAlt =>
      text, count' := ReplaceRelativeM(ctx.dialect, ctx.env, ctx.dirs, disk, names, count, index, matched, "image", h.src);
    case Marker =>
      text, count', index' := ReplaceMarkerM(ctx.dialect, ctx.env, ctx.images, disk, names, count, index, matched);
  }

  /** One step of `re.sub` at `p`: the replacement of the match found
      there, or the character copied; `p'` is where the scan resumes. */
  method SubStep(pat: Pattern, ctx: Ctx, s: string, p: nat, disk: FileSystem, names: NameSupply, count: nat, index: nat)
    returns (text: string, p': nat, count': nat, index': nat)
    requires p < |s|
    requires names.hex == ctx.env.hex
    modifies disk, names
    ensures p < p' <= |s|
    ensures var rest := Sub(pat, ctx, s, p', St(disk.State(), names.next, count', index'));
            Sub(pat, ctx, s, p, St(old(disk.State()), old(names.next), count, index)) == (text + rest.0, rest.1)
  {
    match MatchAt(pat, s, p)
    case Some(h) =>
      text, count', index' := ReplaceM(pat, ctx, s, p, h, disk, names, count, index);
      p' := h.end;
    case None =>
      text, p', count', index' := [s[p]], p + 1, count, index;
  }

  /** `re.sub(pat, replacer, s)`. */
  method SubM(pat: Pattern, ctx: Ctx, s: string, disk: FileSystem, names: NameSupply, count: nat, index: nat)
    returns (out: string, count': nat, index': nat)
    requires names.hex == ctx.env.hex
    modifies disk, names
    ensures (out, St(disk.State(), names.next, count', index'))
            == Sub(pat, ctx, s, 0, St(old(disk.State()), old(names.next), count, index))
  {
    ghost var total := Sub(pat, ctx, s, 0, St(disk.State(), names.next, count, index));
    out, count', index' := "", count, index;
    var p := 0;
    while p < |s|
      invariant p <= |s|
      invariant names.hex == ctx.env.hex
      invariant out + Sub(pat, ctx, s, p, St(disk.State(), names.next, count', index')).0 == total.0
      invariant Sub(pat, ctx, s, p, St(disk.State(), names.next, count', index')).1 == total.1
      decreases |s| - p
    {
      var text;
      text, p, count', index' := SubStep(pat, ctx, s, p, disk, names, count', index');
      ConcatAssoc(out, text, Sub(pat, ctx, s, p, St(disk.State(), names.next, count', index')).0);
      out := out + text;
    }
    assert out + "" == out;
  }

  /** `all_image_files`, extended directory by directory. */
  method CollectImages(disk: FileSystem, dirs: seq<string>) returns (images: seq<string>)
    ensures images == ImageFiles(disk.State(), dirs)
  {
    images := [];
    var i := 0;
    while i < |dirs|
      invariant 0 <= i <= |dirs|
      invariant images + ImageFiles(disk.State(), dirs[i..]) == ImageFiles(disk.State(), dirs)
    {
      assert dirs[i..][1..] == dirs[i + 1..];
      if disk.State().IsDir(dirs[i]) {
        images := images + GlobAll(disk.State(), dirs[i], ImageExtensions);
      }
      i := i + 1;
    }
  }

  /** One iteration of the fallback loop: relocate `src` and return its
      entry ("" when the copy fails). */
  method FallbackStep(d: Dialect, env: Env, src: string, disk: FileSystem, names: NameSupply, count: nat, index: nat)
    returns (entry: string, count': nat)
    requires names.hex == env.hex
    modifies disk, names
    ensures (entry, St(disk.State(), names.next, count', index))
            == FallbackOne(d, env, src, St(old(disk.State()), old(names.next), count, index))
  {
    var ok, name;
    ok, name, count' := RelocateM(env, disk, names, src, count, index);
    entry := if ok then FallbackEntry(d, Stem(Name(src)), WebPath(env, name)) else "";
  }

  /** The fallback loop, appending to the text it is given. */
  method FallbackM(d: Dialect, env: Env, images: seq<string>, disk: FileSystem, names: NameSupply, content: string, count: nat, index: nat)
    returns (out: string, count': nat)
    requires names.hex == env.hex
    modifies disk, names
    ensures var f := Fallback(d, env, images, 0, St(old(disk.State()), old(names.next), count, index));
            out == content + f.0 && St(disk.State(), names.next, count', index) == f.1
  {
    ghost var total := Fallback(d, env, images, 0, St(disk.State(), names.next, count, index));
    out, count' := content, count;
    var i := 0;
    while i < |images|
      invariant 0 <= i <= |images|
      invariant names.hex == env.hex
      invariant var rest := Fallback(d, env, images, i, St(disk.State(), names.next, count', index));
                out + rest.0 == content + total.0 && rest.1 == total.1
    {
      var entry;
      entry, count' := FallbackStep(d, env, images[i], disk, names, count', index);
      ghost var rest := Fallback(d, env, images, i + 1, St(disk.State(), names.next, count', index));
      ConcatAssoc(out, entry, rest.0);
      out := out + entry;
      i := i + 1;
    }
  }

  /** `process_markdown_images` (MarkdownDoc) and `process_html_images`
      (HtmlDoc). */
  method ProcessImages(d: Dialect, content: string, mode: string, env: Env, disk: FileSystem, names: NameSupply)
    returns (r: Result<string, string>)
    requires names.hex == env.hex
    modifies disk, names
    ensures var spec := Rewrite(d, content, mode, env, old(disk.State()), old(names.next));
            r == spec.text && disk.State() == spec.fs && names.next == spec.cursor
  {
    if mode != "referenced" {
      return Ok(content);
    }
    var made := disk.MakeDirs(DestDir(env));
    if !made {
      return Err("cannot create " + DestDir(env));
    }
    var ctx0 := Ctx(d, env, [], []);
    var text, count, index := content, 0, 0;
    text, count, index := SubM(if d == MarkdownDoc then MdDataUri else HtmlDataUriAlt, ctx0, text, disk, names, count, index);
    if d == HtmlDoc {
      text, count, index := SubM(HtmlDataUriNoAlt, ctx0, text, disk, names, count, index);
    }
    if !disk.State().IsDir(env.outDir) {
      return Err("cannot list " + env.outDir);
    }
    var dirs := CandidateDirs(disk.State(), env);
    var images := CollectImages(disk, dirs);
    var ctx := Ctx(d, env, dirs, images);
    text, count, index := SubM(if d == MarkdownDoc then MdRelative else HtmlRelativeAlt, ctx, text, disk, names, count, index);
    if d == HtmlDoc {
      text, count, index := SubM(HtmlRelativeNoAlt, ctx, text, disk, names, count, index);
    }
    if Contains(content, MarkerText) && images != [] {
      images := SortByName(images);
      text, count, index := SubM(Marker, ctx.(images := images), text, disk, names, count, index);
    }
    if count == 0 && ctx.images != [] {
      text, count := FallbackM(d, env, images, disk, names, text + FallbackHeading(d), count, index);
    }
    return Ok(text);
  }
}
