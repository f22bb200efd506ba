/** Properties of the image rewriter that relate whole passes: what a pass
    may change on disk, how the counters move, what the marker pass
    consumes, what the fallback appends, and the behaviour of the patterns
    at their edges. */
module ImageProps {
  import opened Wrappers
  import opened Strings
  import opened Paths
  import opened Sorting
  import opened Disk
  import opened ImageScan
  import opened ImageRewrite

  /** The fresh names land inside the image directory: the directory is not
      empty and the task id does not start with a separator. */
  predicate SaneEnv(env: Env)
  {
    DestDir(env) != "" && !StartsWith(env.taskId, "/")
  }

  predicate InDest(env: Env, p: string)
  {
    StartsWith(p, DestDir(env) + "/")
  }

  /** From state `a` to state `b` only files inside the image directory were
      added or overwritten (nothing was removed, no directory appeared), at
      most one file was relocated per drawn name, and the counters did not
      go back. */
  predicate Grows(env: Env, a: St, b: St)
  {
    a.cursor <= b.cursor && a.count <= b.count && a.index <= b.index
    && b.count - a.count <= b.cursor - a.cursor
    && b.fs.unwritable == a.fs.unwritable && b.fs.dirs.Keys == a.fs.dirs.Keys
    && a.fs.files.Keys <= b.fs.files.Keys
    && (forall p :: p in a.fs.files && !InDest(env, p) ==> b.fs.files[p] == a.fs.files[p])
  }

  lemma GrowsTrans(env: Env, a: St, b: St, c: St)
    requires Grows(env, a, b) && Grows(env, b, c)
    ensures Grows(env, a, c)
  {
  }

  /** Every drawn name is written inside the image directory. */
  lemma DestInDir(env: Env, k: nat, ext: string)
    requires SaneEnv(env)
    ensures InDest(env, Dest(env, k, ext))
  {
    var name := MintedName(env, k, ext);
    assert name[0] != '/' by {
      if env.taskId == "" {
        assert name[0] == '_';
      } else {
        assert name[0] == env.taskId[0];
        assert env.taskId[..1] != "/";
      }
    }
    assert !StartsWith(name, "/");
    var p := DestDir(env) + "/" + name;
    assert p[..|DestDir(env) + "/"|] == DestDir(env) + "/";
  }

  /** Writing or copying to a drawn name is a step of `Grows` that draws one
      name and relocates at most one file. */
  lemma WriteGrows(env: Env, st: St, k: nat, ext: string, ok: bool, fs: FsState, c: Content)
    requires SaneEnv(env) && k == st.cursor
    requires (ok, fs) == WriteFile(st.fs, Dest(env, k, ext), c)
    ensures ok ==> Grows(env, st, St(fs, st.cursor + 1, st.count + 1, st.index))
    ensures !ok ==> fs == st.fs
  {
    DestInDir(env, k, ext);
  }

  lemma ReplaceGrows(pat: Pattern, ctx: Ctx, s: string, p: nat, h: Hit, st: St)
    requires SaneEnv(ctx.env)
    requires p < h.end <= |s|
    ensures Grows(ctx.env, st, Replace(pat, ctx, s, p, h, st).1)
  {
    var env := ctx.env;
    var matched := s[p..h.end];
    match pat
    case MdDataUri =>
      DestInDir(env, st.cursor, "." + h.imgType);
    case HtmlDataUriAlt =>
      DestInDir(env, st.cursor, "." + h.imgType);
    case HtmlDataUriNoAlt =>
      DestInDir(env, st.cursor, "." + h.imgType);
    case MdRelative =>
      RelativeGrows(ctx, st, matched, h.alt, h.src);
    case HtmlRelativeAlt =>
      RelativeGrows(ctx, st, matched, h.alt, h.src);
    case HtmlRelativeNoAlt =>
      RelativeGrows(ctx, st, matched, "image", h.src);
    case Marker =>
      if st.index < |ctx.images| {
        RelocateGrows(env, ctx.images[st.index], st);
      }
  }

  /** One copy to a drawn name is a step of `Grows` that draws one name. */
  lemma RelocateGrows(env: Env, src: string, st: St)
    requires SaneEnv(env)
    ensures Grows(env, st, Relocate(env, src, st).st)
    ensures Relocate(env, src, st).st.cursor == st.cursor + 1
  {
    DestInDir(env, st.cursor, Suffix(Name(src)));
  }

  lemma RelativeGrows(ctx: Ctx, st: St, matched: string, alt: string, rel: string)
    requires SaneEnv(ctx.env)
    ensures Grows(ctx.env, st, ReplaceRelative(ctx.dialect, ctx.env, ctx.dirs, st, matched, alt, rel).1)
  {
    var found := FirstFile(st.fs, SourceCandidates(st.fs, ctx.env, ctx.dirs, rel));
    if found.Some? {
      RelocateGrows(ctx.env, found.value, st);
    }
  }

  // ------------------------------------------------------------ one replacement

  /** A data URI that decodes is written, under the next drawn name, as
      exactly the decoded bytes, and the match becomes a link to it; when the
      write fails the match stays and only the drawn name is used up. */
  lemma DataUriOutcome(d: Dialect, env: Env, st: St, matched: string, alt: string, imgType: string, data: string)
    requires env.decode(data).Some?
    ensures var r := ReplaceDataUri(d, env, st, matched, alt, imgType, data);
            var path := Dest(env, st.cursor, "." + imgType);
            if st.fs.Writable(path) then
              r.0 == Link(d, alt, WebPath(env, MintedName(env, st.cursor, "." + imgType)))
              && r.1.fs.files == st.fs.files[path := Blob(env.decode(data).value)]
              && r.1.cursor == st.cursor + 1 && r.1.count == st.count + 1 && r.1.index == st.index
            else r == (matched, st.(cursor := st.cursor + 1))
  {
  }

  /** A relative image is copied from the first existing candidate under the
      next drawn name and the match links to the copy; when the copy fails
      the match stays and only the drawn name is used up. */
  lemma RelativeOutcome(d: Dialect, env: Env, dirs: seq<string>, st: St, matched: string, alt: string, rel: string, src: string)
    requires FirstFile(st.fs, SourceCandidates(st.fs, env, dirs, rel)) == Some(src)
    ensures var r := ReplaceRelative(d, env, dirs, st, matched, alt, rel);
            var name := MintedName(env, st.cursor, Suffix(Name(src)));
            if st.fs.Writable(Join(DestDir(env), name)) then
              r.0 == Link(d, alt, WebPath(env, name))
              && r.1.fs.files == st.fs.files[Join(DestDir(env), name) := st.fs.files[src]]
              && r.1.cursor == st.cursor + 1 && r.1.count == st.count + 1 && r.1.index == st.index
            else r == (matched, st.(cursor := st.cursor + 1))
  {
    assert st.fs.IsFile(src);
    RelocateOutcome(env, src, st);
  }

  /** Relocating an existing file: the copy succeeds exactly when the
      drawn destination can be written. */
  lemma RelocateOutcome(env: Env, src: string, st: St)
    requires st.fs.IsFile(src)
    ensures var m := Relocate(env, src, st);
            var dst := Join(DestDir(env), MintedName(env, st.cursor, Suffix(Name(src))));
            m.ok == st.fs.Writable(dst)
            && (m.ok ==> m.st.fs.files == st.fs.files[dst := st.fs.files[src]]
                         && m.st.cursor == st.cursor + 1 && m.st.count == st.count + 1 && m.st.index == st.index)
            && (!m.ok ==> m.st == st.(cursor := st.cursor + 1))
  {
  }

  /** The marker at image index `i` copies image `i` and links to the copy
      with the image's stem as alt text; when the copy fails the marker
      stays, the disk is unchanged, and the index still advances. */
  lemma MarkerOutcome(d: Dialect, env: Env, images: seq<string>, st: St, matched: string)
    requires st.index < |images|
    ensures var r := ReplaceMarker(d, env, images, st, matched);
            var src := images[st.index];
            var name := MintedName(env, st.cursor, Suffix(Name(src)));
            if st.fs.IsFile(src) && st.fs.Writable(Join(DestDir(env), name)) then
              r.0 == Link(d, Stem(Name(src)), WebPath(env, name))
              && r.1.fs.files == st.fs.files[Join(DestDir(env), name) := st.fs.files[src]]
              && r.1.count == st.count + 1 && r.1.index == st.index + 1
            else r == (matched, st.(cursor := st.cursor + 1, index := st.index + 1))
  {
  }

  /** A whole `re.sub` pass only adds or overwrites files in the image
      directory, and relocates at most one file per drawn name. */
  lemma {:induction false} SubGrows(pat: Pattern, ctx: Ctx, s: string, p: nat, st: St)
    requires SaneEnv(ctx.env)
    requires p <= |s|
    ensures Grows(ctx.env, st, Sub(pat, ctx, s, p, st).1)
    decreases |s| - p
  {
    if p < |s| {
      match MatchAt(pat, s, p)
      case Some(h) =>
        var one := Replace(pat, ctx, s, p, h, st);
        ReplaceGrows(pat, ctx, s, p, h, st);
        SubGrows(pat, ctx, s, h.end, one.1);
        GrowsTrans(ctx.env, st, one.1, Sub(pat, ctx, s, h.end, one.1).1);
      case None =>
        SubGrows(pat, ctx, s, p + 1, st);
    }
  }

  lemma DataUriPassesGrow(ctx: Ctx, s: string, st: St)
    requires SaneEnv(ctx.env)
    ensures Grows(ctx.env, st, DataUriPasses(ctx, s, st).1)
  {
    match ctx.dialect
    case MarkdownDoc => SubGrows(MdDataUri, ctx, s, 0, st);
    case HtmlDoc =>
      var a := Sub(HtmlDataUriAlt, ctx, s, 0, st);
      SubGrows(HtmlDataUriAlt, ctx, s, 0, st);
      SubGrows(HtmlDataUriNoAlt, ctx, a.0, 0, a.1);
  }

  lemma RelativePassesGrow(ctx: Ctx, s: string, st: St)
    requires SaneEnv(ctx.env)
    ensures Grows(ctx.env, st, RelativePasses(ctx, s, st).1)
  {
    match ctx.dialect
    case MarkdownDoc => SubGrows(MdRelative, ctx, s, 0, st);
    case HtmlDoc =>
      var a := Sub(HtmlRelativeAlt, ctx, s, 0, st);
      SubGrows(HtmlRelativeAlt, ctx, s, 0, st);
      SubGrows(HtmlRelativeNoAlt, ctx, a.0, 0, a.1);
  }

  lemma MarkerPassGrows(ctx: Ctx, content: string, s: string, st: St)
    requires SaneEnv(ctx.env)
    ensures Grows(ctx.env, st, MarkerPass(ctx, content, s, st).1)
  {
    if Contains(content, MarkerText) && ctx.images != [] {
      SubGrows(Marker, ctx.(images := SortByName(ctx.images)), s, 0, st);
    }
  }

  /** A whole call only adds or overwrites files inside the image directory,
      never removes a file, and relocates at most one file per drawn name;
      `processed_images_count` counts relocations. */
  lemma RewriteFrame(d: Dialect, content: string, mode: string, env: Env, fs: FsState, cursor: nat)
    requires SaneEnv(env)
    ensures var r := Rewrite(d, content, mode, env, fs, cursor);
            cursor <= r.cursor && r.count <= r.cursor - cursor
            && fs.files.Keys <= r.fs.files.Keys
            && forall p :: p in fs.files && !InDest(env, p) ==> r.fs.files[p] == fs.files[p]
  {
    if mode == "referenced" {
      var mk := MakeDir(fs, DestDir(env));
      if mk.0 {
        var st0 := St(mk.1, cursor, 0, 0);
        var ctx0 := Ctx(d, env, [], []);
        var a := DataUriPasses(ctx0, content, st0);
        DataUriPassesGrow(ctx0, content, st0);
        if a.1.fs.IsDir(env.outDir) {
          var dirs := CandidateDirs(a.1.fs, env);
          var ctx := Ctx(d, env, dirs, ImageFiles(a.1.fs, dirs));
          var b := RelativePasses(ctx, a.0, a.1);
          RelativePassesGrow(ctx, a.0, a.1);
          var m := MarkerPass(ctx, content, b.0, b.1);
          MarkerPassGrows(ctx, content, b.0, b.1);
          GrowsTrans(env, st0, a.1, b.1);
          GrowsTrans(env, st0, b.1, m.1);
          if m.1.count == 0 && ctx.images != [] {
            FallbackShape(d, env, m.2, 0, m.1);
            GrowsTrans(env, st0, m.1, Fallback(d, env, m.2, 0, m.1).1);
          }
        }
      }
    }
  }

  /** Where no match starts, `re.sub` returns its input and changes nothing. */
  lemma {:induction false} SubNoMatch(pat: Pattern, ctx: Ctx, s: string, p: nat, st: St)
    requires p <= |s|
    requires forall q :: p <= q < |s| ==> MatchAt(pat, s, q).None?
    ensures Sub(pat, ctx, s, p, st) == (s[p..], st)
    decreases |s| - p
  {
    if p == |s| {
      assert s[p..] == [];
    } else {
      assert MatchAt(pat, s, p).None?;
      SubNoMatch(pat, ctx, s, p + 1, st);
      assert s[p..] == [s[p]] + s[p + 1..];
    }
  }

  // ------------------------------------------------------------ marker pass

  /** The markers `re.sub` finds from `p`: non-overlapping, left to right. */
  function MarkerCount(s: string, p: nat): nat
    requires p <= |s|
    decreases |s| - p
  {
    if p == |s| then 0
    else if At(s, p, MarkerText) then 1 + MarkerCount(s, p + |MarkerText|)
    else MarkerCount(s, p + 1)
  }

  function Min(a: int, b: int): int
  {
    if a <= b then a else b
  }

  /** `re.sub` at the end of the text: nothing is emitted or changed. */
  lemma SubAtEnd(pat: Pattern, ctx: Ctx, s: string, st: St)
    ensures Sub(pat, ctx, s, |s|, st) == ("", st)
  {
  }

  /** `re.sub` at a marker: the replacement, then the rest of the text. */
  lemma SubAtMarker(ctx: Ctx, s: string, p: nat, st: St)
    requires p < |s| && At(s, p, MarkerText)
    ensures var one := ReplaceMarker(ctx.dialect, ctx.env, ctx.images, st, s[p..p + |MarkerText|]);
            var rest := Sub(Marker, ctx, s, p + |MarkerText|, one.1);
            Sub(Marker, ctx, s, p, st) == (one.0 + rest.0, rest.1)
  {
    assert MatchAt(Marker, s, p) == Some(Hit(p + |MarkerText|, "", "", "", ""));
  }

  /** `re.sub` where no marker starts: one character is copied. */
  lemma SubPastMarker(ctx: Ctx, s: string, p: nat, st: St)
    requires p < |s| && !At(s, p, MarkerText)
    ensures var rest := Sub(Marker, ctx, s, p + 1, st);
            Sub(Marker, ctx, s, p, st) == ([s[p]] + rest.0, rest.1)
  {
    assert MatchAt(Marker, s, p) == None;
  }

  /** One marker: the image index moves by one, up to the last image. */
  lemma MarkerIndexStep(ctx: Ctx, st: St, matched: string)
    ensures var one := ReplaceMarker(ctx.dialect, ctx.env, ctx.images, st, matched);
            one.1.index == if st.index < |ctx.images| then st.index + 1 else st.index
  {
  }

  lemma MarkerCountPast(s: string, p: nat)
    requires p < |s| && !At(s, p, MarkerText)
    ensures MarkerCount(s, p) == MarkerCount(s, p + 1)
  {
  }

  lemma MarkerCountAt(s: string, p: nat)
    requires p < |s| && At(s, p, MarkerText)
    ensures MarkerCount(s, p) == 1 + MarkerCount(s, p + |MarkerText|)
  {
  }

  /** Marker `k` takes image `k`: after the pass the image index has moved
      once per marker, but never past the last image, whether or not the
      copies succeed. */
  lemma MarkerPassIndex(ctx: Ctx, s: string, p: nat, st: St)
    requires p <= |s|
    requires st.index <= |ctx.images|
    ensures Sub(Marker, ctx, s, p, st).1.index == Min(|ctx.images|, st.index + MarkerCount(s, p))
  {
    if st.index + MarkerCount(s, p) <= |ctx.images| {
      MarkerPassBelow(ctx, s, p, st);
    } else {
      MarkerPassAbove(ctx, s, p, st);
    }
  }

  /** While images remain, each marker moves the index by one. */
  lemma {:induction false} MarkerPassBelow(ctx: Ctx, s: string, p: nat, st: St)
    requires p <= |s|
    requires st.index + MarkerCount(s, p) <= |ctx.images|
    ensures Sub(Marker, ctx, s, p, st).1.index == st.index + MarkerCount(s, p)
    decreases |s| - p
  {
    if p == |s| {
      SubAtEnd(Marker, ctx, s, st);
    } else if At(s, p, MarkerText) {
      var e := p + |MarkerText|;
      var one := ReplaceMarker(ctx.dialect, ctx.env, ctx.images, st, s[p..e]);
      SubAtMarker(ctx, s, p, st);
      MarkerCountAt(s, p);
      MarkerIndexStep(ctx, st, s[p..e]);
      MarkerPassBelow(ctx, s, e, one.1);
    } else {
      SubPastMarker(ctx, s, p, st);
      MarkerCountPast(s, p);
      MarkerPassBelow(ctx, s, p + 1, st);
    }
  }

  /** Once there are more markers than images left, the index ends at the
      last image. */
  lemma {:induction false} MarkerPassAbove(ctx: Ctx, s: string, p: nat, st: St)
    requires p <= |s|
    requires st.index <= |ctx.images| <= st.index + MarkerCount(s, p)
    ensures Sub(Marker, ctx, s, p, st).1.index == |ctx.images|
    decreases |s| - p
  {
    if st.index == |ctx.images| {
      MarkersExhausted(ctx, s, p, st);
    } else if p == |s| {
      SubAtEnd(Marker, ctx, s, st);
    } else if At(s, p, MarkerText) {
      var e := p + |MarkerText|;
      var one := ReplaceMarker(ctx.dialect, ctx.env, ctx.images, st, s[p..e]);
      SubAtMarker(ctx, s, p, st);
      MarkerCountAt(s, p);
      MarkerIndexStep(ctx, st, s[p..e]);
      MarkerPassAbove(ctx, s, e, one.1);
    } else {
      SubPastMarker(ctx, s, p, st);
      MarkerCountPast(s, p);
      MarkerPassAbove(ctx, s, p + 1, st);
    }
  }

  /** Once the images are used up, every further marker stays literal and
      nothing else changes. */
  lemma {:induction false} MarkersExhausted(ctx: Ctx, s: string, p: nat, st: St)
    requires p <= |s|
    requires st.index >= |ctx.images|
    ensures Sub(Marker, ctx, s, p, st) == (s[p..], st)
    decreases |s| - p
  {
    if p < |s| {
      if At(s, p, MarkerText) {
        var e := p + |MarkerText|;
        SubAtMarker(ctx, s, p, st);
        var one := ReplaceMarker(ctx.dialect, ctx.env, ctx.images, st, s[p..e]);
        assert one == (s[p..e], st);
        MarkersExhausted(ctx, s, e, st);
        assert Sub(Marker, ctx, s, e, st) == (s[e..], st);
        assert s[p..] == s[p..e] + s[e..];
      } else {
        SubPastMarker(ctx, s, p, st);
        MarkersExhausted(ctx, s, p + 1, st);
        assert Sub(Marker, ctx, s, p + 1, st) == (s[p + 1..], st);
        assert s[p..] == [s[p]] + s[p + 1..];
        assert Sub(Marker, ctx, s, p, st) == ([s[p]] + s[p + 1..], st);
      }
    } else {
      assert s[p..] == [];
    }
  }

  // ------------------------------------------------------------ fallback

  /** The fallback draws one name per image, relocates at most one file per
      image, and appends text exactly when some copy succeeded. */
  lemma {:induction false} FallbackShape(d: Dialect, env: Env, images: seq<string>, from: nat, st: St)
    requires SaneEnv(env) && from <= |images|
    ensures var r := Fallback(d, env, images, from, st);
            r.1.cursor == st.cursor + (|images| - from) && r.1.index == st.index
            && st.count <= r.1.count <= st.count + (|images| - from)
            && (r.0 == "" <==> r.1.count == st.count)
            && Grows(env, st, r.1)
    decreases |images| - from
  {
    if from < |images| {
      var m := Relocate(env, images[from], st);
      assert FallbackOne(d, env, images[from], st).1 == m.st;
      RelocateGrows(env, images[from], st);
      FallbackShape(d, env, images, from + 1, m.st);
      GrowsTrans(env, st, m.st, Fallback(d, env, images, from + 1, m.st).1);
    }
  }

  // ------------------------------------------------------------ names

  /** Two different `uuid4().hex` values of the same length give two
      different file names, whatever the extensions. */
  lemma MintedNamesDistinct(env: Env, k1: nat, k2: nat, e1: string, e2: string)
    requires |env.hex(k1)| == |env.hex(k2)| && env.hex(k1) != env.hex(k2)
    ensures MintedName(env, k1, e1) != MintedName(env, k2, e2)
  {
    var n := |env.taskId| + 1 + |env.hex(k1)|;
    assert MintedName(env, k1, e1)[..n] == env.taskId + "_" + env.hex(k1);
    assert MintedName(env, k2, e2)[..n] == env.taskId + "_" + env.hex(k2);
    assert (env.taskId + "_" + env.hex(k1))[|env.taskId| + 1..] == env.hex(k1);
    assert (env.taskId + "_" + env.hex(k2))[|env.taskId| + 1..] == env.hex(k2);
  }

  // ------------------------------------------------------------ escapes

  /** Every ']' of the escaped alt text is preceded by a backslash. */
  predicate BracketsEscaped(t: string)
  {
    forall i :: 0 <= i < |t| && t[i] == ']' ==> i > 0 && t[i - 1] == '\\'
  }

  lemma {:induction false} MarkdownAltEscaped(alt: string)
    ensures BracketsEscaped(EscapeMarkdownAlt(alt))
  {
    if alt != [] {
      MarkdownAltEscaped(alt[1..]);
      var head: string := if alt[0] == ']' then "\\]" else [alt[0]];
      var rest := EscapeMarkdownAlt(alt[1..]);
      var t := head + rest;
      assert t == EscapeMarkdownAlt(alt);
      forall i | 0 <= i < |t| && t[i] == ']' ensures i > 0 && t[i - 1] == '\\' {
        if i >= |head| {
          assert rest[i - |head|] == ']';
          if i - |head| == 0 {
            assert false;
          }
        }
      }
    }
  }

  /** The escaped HTML alt text holds no '"', so it cannot end the attribute. */
  lemma HtmlAltEscaped(alt: string)
    ensures '"' !in EscapeHtmlAlt(alt)
  {
    ReplaceCharRemoves(alt, '"', "&quot;");
  }

  // ------------------------------------------------------------ patterns at their edges

  /** A relocated link's source is never a relative source, so the
      relative-path patterns do not pick it up again. */
  lemma RewrittenSourceSkipped(env: Env, name: string, s: string, k: nat, close: char)
    requires At(s, k, WebPath(env, name))
    ensures RelativeAt(s, k, close).None?
  {
    var w := WebPath(env, name);
    assert w[0] == '/';
    assert s[k] == w[0];
    assert s[k..k + 1] == "/";
  }

  /** The lazy alt text of the markdown pattern runs over a link that does
      not qualify: here the first link, whose source starts with '/', ends
      up inside the alt text of the second. */
  lemma AltSpansEarlierLink()
    ensures MatchAt(MdRelative, "![a](/x) ![b](c)", 0) == Some(Hit(16, "a](/x) ![b", "c", "", ""))
  {
    var s := "![a](/x) ![b](c)";
    assert At(s, 0, "![") by { assert s[0..2] == "!["; }
    FirstLinkSkipped(s);
    SecondLinkTail(s);
    LazyAltLands(s, 2, 12, MdRelative, Hit(16, "", "c", "", ""));
    AltOfExample(s);
  }

  /** The alt text of the example above, character by character. */
  lemma AltOfExample(s: string)
    requires s == "![a](/x) ![b](c)"
    ensures s[2..12] == "a](/x) ![b"
  {
    var a := s[2..12];
    var e := "a](/x) ![b";
    assert |a| == |e| == 10;
    forall i | 0 <= i < 10 ensures a[i] == e[i] {
      assert a[i] == s[i + 2];
    }
  }

  /** The lazy alt ends at the first tail that matches, with no newline
      before it. */
  lemma LazyAltLands(s: string, altStart: nat, k: nat, pat: Pattern, h: Hit)
    requires pat == MdDataUri || pat == MdRelative
    requires altStart <= k <= |s|
    requires forall i :: altStart <= i < k ==> MdTail(s, i, pat).None? && s[i] != '\n'
    requires MdTail(s, k, pat) == Some(h)
    ensures MdLazyAlt(s, altStart, altStart, pat) == Some(h.(alt := s[altStart..k]))
  {
    LazyAltSkips(s, altStart, altStart, k, pat);
  }

  /** No tail matches inside the alt text of the example above: the first
      link's source starts with '/'. */
  lemma FirstLinkSkipped(s: string)
    requires s == "![a](/x) ![b](c)"
    ensures forall i :: 2 <= i < 12 ==> MdTail(s, i, MdRelative).None? && s[i] != '\n'
  {
    assert s[2] == 'a' && s[3] == ']' && s[4] == '(' && s[5] == '/';
    assert s[6] == 'x' && s[7] == ')' && s[8] == ' ' && s[9] == '!' && s[10] == '[' && s[11] == 'b';
    forall k | 2 <= k < 12 && k != 3 ensures MdTail(s, k, MdRelative) == None {
      NotAt(s, k, "](");
    }
    assert MdTail(s, 3, MdRelative) == None by {
      assert s[5..6] == "/";
      assert ExcludedSource(s, 5);
    }
  }

  /** The second link of the example above qualifies. */
  lemma SecondLinkTail(s: string)
    requires s == "![a](/x) ![b](c)"
    ensures MdTail(s, 12, MdRelative) == Some(Hit(16, "", "c", "", ""))
  {
    assert s[12] == ']' && s[13] == '(' && s[14] == 'c' && s[15] == ')';
    assert At(s, 12, "](") by { assert s[12..14] == "]("; }
    assert !ExcludedSource(s, 14) by {
      NotAt(s, 14, "data:");
      NotAt(s, 14, "http:");
      NotAt(s, 14, "https:");
      NotAt(s, 14, "/");
    }
    assert FirstWhere(s, 14, c => c == ')') == 15;
    assert s[14..15] == "c";
  }

  lemma NotAt(s: string, k: nat, t: string)
    requires k < |s| && t != [] && s[k] != t[0]
    ensures !At(s, k, t)
  {
    if k + |t| <= |s| {
      assert s[k..k + |t|][0] == s[k];
    }
  }

  /** The lazy alt reaches `k` when no tail matches before it and no newline
      lies in between. */
  lemma {:induction false} LazyAltSkips(s: string, altStart: nat, j: nat, k: nat, pat: Pattern)
    requires pat == MdDataUri || pat == MdRelative
    requires altStart <= j <= k <= |s|
    requires forall i :: j <= i < k ==> MdTail(s, i, pat).None? && s[i] != '\n'
    ensures MdLazyAlt(s, altStart, j, pat) == MdLazyAlt(s, altStart, k, pat)
    decreases k - j
  {
    if j < k {
      LazyAltSkips(s, altStart, j + 1, k, pat);
    }
  }

  /** `possible_img_dirs` is not deduplicated: an `images` subdirectory of
      the output directory is listed twice. */
  lemma CandidateDirsRepeat(fs: FsState, env: Env)
    requires fs.Entries(env.outDir) == ["images"]
    requires fs.IsDir(Join(env.outDir, "images"))
    ensures |CandidateDirs(fs, env)| == 4
    ensures CandidateDirs(fs, env)[2] == CandidateDirs(fs, env)[3]
  {
    assert !StartsWith("images", ".");
    assert VisibleSubdirs(fs, env.outDir, ["images"]) == [Join(env.outDir, "images")];
  }

  lemma GlobSingle(fs: FsState, dir: string, n: string, e: string)
    requires !EndsWith(n, e)
    ensures Glob(fs, dir, [n], e) == []
  {
    assert [n][1..] == [];
  }

  /** The extension globs are case-sensitive: a name in mixed case such as
      `a.Png` matches neither `*.png` nor its upper-case form. */
  lemma MixedCaseNotCollected(fs: FsState, dir: string)
    ensures Glob(fs, dir, ["a.Png"], ".png") == []
    ensures Glob(fs, dir, ["a.Png"], Upper(".png")) == []
  {
    var n := "a.Png";
    assert n[1..] != ".png" by { assert n[1..][1] == 'P'; }
    assert Upper(".png") == ".PNG";
    assert n[1..] != ".PNG" by { assert n[1..][2] == 'n'; }
    GlobSingle(fs, dir, n, ".png");
    GlobSingle(fs, dir, n, ".PNG");
  }
}
