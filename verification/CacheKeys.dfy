/** Cache keys, the media mode a format asks for, and the attachment name sent to the chat. */
module CacheKeys {
  import opened Basics
  import opened Text

  /** format_id_digest_part */
  function Part(format: Option<string>): string {
    if format.Some? then format.value else "default"
  }

  /** What canonical_cache_key hashes. */
  function Preimage(url: string, part: string): string {
    Strip(url) + "\n" + part
  }

  function CacheKey(digest: string -> string, url: string, format: Option<string>): string {
    digest(Preimage(url, Part(format)))
  }

  ghost predicate CollisionFree(digest: string -> string) {
    forall a, b :: digest(a) == digest(b) ==> a == b
  }

  /** `long` ends in a line break and `short`, after a character that strip() would keep. */
  predicate Shadows(long: string, short: string) {
    var n := |long| - |short| - 1;
    n > 0 && long[n] == '\n' && long[n + 1..] == short && !IsSpace(long[n - 1])
  }

  lemma SameLength(a: string, b: string, p: string, q: string)
    requires a + "\n" + p == b + "\n" + q && |p| == |q|
    ensures a == b && p == q
  {
    assert (a + "\n" + p)[..|a|] == a;
    assert (b + "\n" + q)[..|b|] == b;
    assert (a + "\n" + p)[|a| + 1..] == p;
    assert (b + "\n" + q)[|b| + 1..] == q;
  }

  /** If two preimages agree and the second part is the longer one, it swallows the end of the first
      URL. */
  lemma Swallows(a: string, b: string, p: string, q: string)
    requires a + "\n" + p == b + "\n" + q && |p| < |q| && Stripped(a)
    ensures Shadows(q, p)
  {
    var whole := a + "\n" + p;
    var n := |q| - |p| - 1;
    assert whole[|b| + 1..] == q;
    assert whole[|a|] == '\n' && q[n] == whole[|a|];
    assert whole[|a| + 1..] == p;
    assert q[n + 1..] == p;
    assert whole[|a| - 1] == a[|a| - 1];
    assert whole[|b|] == '\n';
    assert n > 0;
    assert q[n - 1] == whole[|a| - 1];
  }

  /** The URLs that make a shadowed format collide. */
  lemma ShadowCollides(p: string, q: string)
    requires Shadows(q, p)
    ensures exists url, url' :: Preimage(url, p) == Preimage(url', q)
  {
    var n := |q| - |p| - 1;
    var url, url' := "a\n" + q[..n], "a";
    StrippedStays(url);
    StrippedStays(url');
    assert q == q[..n] + "\n" + p;
    assert Preimage(url, p) == url + "\n" + p;
    assert Preimage(url', q) == "a" + "\n" + q;
    assert url + "\n" + p == "a" + "\n" + q;
  }

  /** Exactly which pairs of different formats can share a key for some pair of URLs. */
  lemma CollisionsExactly(p: string, q: string)
    requires p != q
    ensures (exists url, url' :: Preimage(url, p) == Preimage(url', q)) <==> Shadows(q, p) || Shadows(p, q)
  {
    if url, url' :| Preimage(url, p) == Preimage(url', q) {
      StripIsStripped(url);
      StripIsStripped(url');
      if |p| == |q| {
        SameLength(Strip(url), Strip(url'), p, q);
      } else if |p| < |q| {
        Swallows(Strip(url), Strip(url'), p, q);
      } else {
        Swallows(Strip(url'), Strip(url), q, p);
      }
    }
    if Shadows(q, p) {
      ShadowCollides(p, q);
    }
    if Shadows(p, q) {
      ShadowCollides(q, p);
      var url', url :| Preimage(url', q) == Preimage(url, p);
    }
  }

  /** Cache keys separate requests: unless one format shadows the other, keys are equal exactly when
      the stripped URLs and the formats are, where no format counts as "default". */
  lemma KeysSeparate(digest: string -> string, url: string, format: Option<string>, url': string,
                     format': Option<string>)
    requires CollisionFree(digest)
    requires !Shadows(Part(format), Part(format')) && !Shadows(Part(format'), Part(format))
    ensures CacheKey(digest, url, format) == CacheKey(digest, url', format') <==>
      Strip(url) == Strip(url') && Part(format) == Part(format')
  {
    var p, q := Part(format), Part(format');
    if CacheKey(digest, url, format) == CacheKey(digest, url', format') {
      assert Preimage(url, p) == Preimage(url', q);
      if p == q {
        SameLength(Strip(url), Strip(url'), p, q);
      } else {
        CollisionsExactly(p, q);
      }
    }
  }

  /** Formats without line breaks, such as the ones the bot's commands use, shadow nothing. */
  lemma OneLineFormats(long: string, short: string)
    requires '\n' !in long
    ensures !Shadows(long, short)
  {
  }

  // ---- Modes and names ----

  function LowerChar(c: char): char {
    if 'A' <= c <= 'Z' then c - 'A' + 'a' else c
  }

  /** str.lower on the letters that matter for the preset names. */
  function Lower(s: string): string {
    seq(|s|, i requires 0 <= i < |s| => LowerChar(s[i]))
  }

  predicate AudioPreset(format: string) {
    Lower(Strip(format)) in {"audio", "mp3", "bestaudio"}
  }

  datatype Mode = Audio | Video

  /** YtDlpMediaDownloader._mode */
  function ModeOf(format: Option<string>): Mode {
    if AudioPreset(if format.Some? then format.value else "") then Audio else Video
  }

  /** The mime type the downloader reports for its file. */
  function MimeOf(mode: Mode, mp4: bool): string {
    if mode == Audio then "audio/mpeg" else if mp4 then "video/mp4" else "application/octet-stream"
  }

  function ExtensionFor(mime: Option<string>, audio: bool): string {
    if mime == Some("audio/mpeg") then ".mp3"
    else if mime == Some("video/mp4") then ".mp4"
    else if audio then ".mp3"
    else ".mp4"
  }

  function Extension(format: Option<string>, mime: Option<string>): string {
    ExtensionFor(mime, AudioPreset(if format.Some? && format.value != "" then format.value else "video"))
  }

  function Slashes(s: string): string {
    seq(|s|, i requires 0 <= i < |s| => if s[i] == '/' || s[i] == '\\' then '_' else s[i])
  }

  const FILENAME_MAX := 180

  /** _outgoing_document_filename, for a file with this stem. */
  function AttachmentName(stem: string, format: Option<string>, mime: Option<string>): string {
    var ext := Extension(format, mime);
    var safe := Slashes(Strip(if stem != "" then stem else "media"));
    var max := if FILENAME_MAX - |ext| >= 1 then FILENAME_MAX - |ext| else 1;
    (if |safe| > max then safe[..max] else safe) + ext
  }

  lemma NotPresets()
    ensures !AudioPreset("") && !AudioPreset("default") && !AudioPreset("video")
  {
    StrippedStays("");
    StrippedStays("default");
    StrippedStays("video");
    assert |Lower("")| == 0;
    assert Lower("default")[0] == 'd' && |Lower("default")| == 7;
    assert Lower("video")[0] == 'v';
  }

  /** Requests with equal keys ask for the same mode, so a cached blob is what the request wants. */
  lemma EqualKeysKeepTheMode(digest: string -> string, url: string, format: Option<string>, url': string,
                             format': Option<string>)
    requires CollisionFree(digest)
    requires !Shadows(Part(format), Part(format')) && !Shadows(Part(format'), Part(format))
    requires CacheKey(digest, url, format) == CacheKey(digest, url', format')
    ensures ModeOf(format) == ModeOf(format')
  {
    KeysSeparate(digest, url, format, url', format');
    NotPresets();
  }

  lemma MimeAgrees(mode: Mode, mp4: bool)
    ensures ExtensionFor(Some(MimeOf(mode, mp4)), mode == Audio) == ExtensionFor(None, mode == Audio)
  {
  }

  /** The downloader and the notifier agree on which formats are audio. */
  lemma PresetsAgree(format: Option<string>)
    ensures AudioPreset(if format.Some? && format.value != "" then format.value else "video")
      == (ModeOf(format) == Audio)
  {
    NotPresets();
  }

  lemma SameExtension(format: Option<string>, mp4: bool)
    ensures Extension(format, None) == Extension(format, Some(MimeOf(ModeOf(format), mp4)))
  {
    PresetsAgree(format);
    MimeAgrees(ModeOf(format), mp4);
  }

  /** The attachment of one request has the same name whether the file came from the cache, which
      reports no mime type, or from the download. */
  lemma SameNameOnHitAndFetch(stem: string, format: Option<string>, mp4: bool)
    ensures AttachmentName(stem, format, None) == AttachmentName(stem, format, Some(MimeOf(ModeOf(format), mp4)))
  {
    SameExtension(format, mp4);
  }

  lemma SlashFree(s: string)
    ensures forall i :: 0 <= i < |s| ==> Slashes(s)[i] != '/' && Slashes(s)[i] != '\\'
  {
  }

  lemma ExtensionIs(format: Option<string>, mime: Option<string>)
    ensures Extension(format, mime) in {".mp3", ".mp4"}
    ensures |Extension(format, mime)| == 4
    ensures '/' !in Extension(format, mime) && '\\' !in Extension(format, mime)
  {
  }

  /** An attachment name has no path separators and at most 180 characters. */
  lemma NameIsSafe(stem: string, format: Option<string>, mime: Option<string>)
    ensures |AttachmentName(stem, format, mime)| <= 180
    ensures '/' !in AttachmentName(stem, format, mime) && '\\' !in AttachmentName(stem, format, mime)
  {
    ExtensionIs(format, mime);
    SlashFree(Strip(if stem != "" then stem else "media"));
  }

  // ---- The texts themselves ----

  /** What is hashed: the stripped URL and the format on two lines; no format is the format "default". */
  lemma HashedText(digest: string -> string, url: string, format: string)
    ensures CacheKey(digest, url, Some(format)) == digest(Strip(url) + "\n" + format)
    ensures CacheKey(digest, url, None) == CacheKey(digest, url, Some("default"))
  {
  }

  /** Blanks around a format or a URL make no difference. */
  lemma BlanksDoNotMatter(before: string, core: string, after: string)
    requires Blank(before) && Blank(after) && core != "" && Stripped(core)
    ensures Strip(before + core + after) == core
    ensures ModeOf(Some(before + core + after)) == ModeOf(Some(core))
  {
    assert before + core + after == before + (core + after);
    LeftStripPrefix(before, core + after);
    var k := RightStripKeeps(core, after);
    assert core + after[..0] == core;
    StrippedStays(core);
    hide Lower;
  }

  /** The two texts agree but for capitals in the first. */
  predicate Capitals(a: string, b: string) {
    |a| == |b|
    && forall i :: 0 <= i < |a| ==> a[i] == b[i] || ('A' <= a[i] <= 'Z' && a[i] as int + 32 == b[i] as int)
  }

  lemma LowerIs(a: string, b: string)
    requires Lower(b) == b
    ensures Lower(a) == b <==> Capitals(a, b)
  {
    assert forall i :: 0 <= i < |b| ==> b[i] == LowerChar(b[i]) by {
      assert forall i :: 0 <= i < |b| ==> Lower(b)[i] == LowerChar(b[i]);
    }
    if Lower(a) == b {
      assert forall i :: 0 <= i < |a| ==> Lower(a)[i] == LowerChar(a[i]);
    }
  }

  lemma LowerPresets()
    ensures Lower("audio") == "audio" && Lower("mp3") == "mp3" && Lower("bestaudio") == "bestaudio"
  {
  }

  /** The audio presets are these three, in any case, and nothing else. */
  lemma AudioPresets(format: string)
    requires Stripped(format)
    ensures ModeOf(Some(format)) == Audio
      <==> Capitals(format, "audio") || Capitals(format, "mp3") || Capitals(format, "bestaudio")
    ensures ModeOf(None) == Video
  {
    NotPresets();
    StrippedStays(format);
    LowerPresets();
    hide Lower;
    hide Strip;
    LowerIs(format, "audio");
    LowerIs(format, "mp3");
    LowerIs(format, "bestaudio");
    hide Capitals;
  }

  /** The attachment of an audio request ends in ".mp3" and of any other in ".mp4", from the cache as from
      the download. */
  lemma NameShowsTheMode(stem: string, format: Option<string>, mp4: bool)
    ensures var n := |AttachmentName(stem, format, None)|;
      && n >= 4
      && AttachmentName(stem, format, None)[n - 4..] == (if ModeOf(format) == Audio then ".mp3" else ".mp4")
      && AttachmentName(stem, format, Some(MimeOf(ModeOf(format), mp4))) == AttachmentName(stem, format, None)
  {
    PresetsAgree(format);
    SameNameOnHitAndFetch(stem, format, mp4);
  }

  /** A stem without blanks at its ends keeps its first 176 characters, with an underscore for each separator;
      an empty one becomes "media". */
  lemma StemIsKept(stem: string, format: Option<string>, mime: Option<string>)
    requires stem != "" && Stripped(stem)
    ensures var name := AttachmentName(stem, format, mime);
      && |name| == 4 + (if |stem| < 176 then |stem| else 176)
      && forall i :: 0 <= i < |name| - 4 ==> name[i] == if stem[i] in ['/', '\\'] then '_' else stem[i]
    ensures AttachmentName("", format, mime) == AttachmentName("media", format, mime)
  {
    ExtensionIs(format, mime);
    StrippedStays(stem);
    hide Strip;
    hide Extension;
  }
}
