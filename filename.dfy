/**
  `sanitizeFileName` and the download name `recordVideo` gives the video:
  characters outside `[a-zA-Z0-9-_.]`, the Devanagari block
  U+0900–U+097F and the space are removed, then every run of whitespace
  (JavaScript's `\s`) becomes one `_`.
*/
module FileName {
  import Text

  /** The class `[a-zA-Z0-9\-_.ऀ-ॿ ]` of the first `replace`. */
  predicate Allowed(c: char) {
    || ('a' <= c <= 'z') || ('A' <= c <= 'Z') || ('0' <= c <= '9')
    || c == '-' || c == '_' || c == '.' || c == ' '
    || ('\U{0900}' <= c <= '\U{097F}')
  }

  predicate AllAllowed(s: string) {
    forall i :: 0 <= i < |s| ==> Allowed(s[i])
  }

  predicate NoWhitespace(s: string) {
    forall i :: 0 <= i < |s| ==> !Text.IsJsWhitespace(s[i])
  }

  /** `replace(/[^...]/g, '')`: the allowed characters of `s`, in order. */
  function KeepAllowed(s: string): (r: string)
    ensures |r| <= |s| && AllAllowed(r)
  {
    if s == [] then []
    else (if Allowed(s[0]) then [s[0]] else []) + KeepAllowed(s[1..])
  }

  /**
    `replace(/\s+/g, '_')` read left to right: `inRun` says whether the
    previous character was whitespace. The first whitespace character of a
    run writes the underscore and the rest of the run writes nothing.
  */
  function CollapseFrom(s: string, inRun: bool): (r: string)
    ensures |r| <= |s|
  {
    if s == [] then []
    else if Text.IsJsWhitespace(s[0]) then (if inRun then [] else "_") + CollapseFrom(s[1..], true)
    else [s[0]] + CollapseFrom(s[1..], false)
  }

  /** `replace(/\s+/g, '_')` on a whole string. */
  function CollapseWhitespace(s: string): (r: string)
    ensures |r| <= |s|
  {
    CollapseFrom(s, false)
  }

  /** No whitespace survives the collapse. */
  lemma {:induction false} CollapseNoWhitespace(s: string, inRun: bool)
    ensures NoWhitespace(CollapseFrom(s, inRun))
  {
    if s != [] {
      CollapseNoWhitespace(s[1..], Text.IsJsWhitespace(s[0]));
    }
  }

  /** The collapse writes only underscores and characters of its input. */
  lemma {:induction false} CollapseCharacters(s: string, inRun: bool)
    ensures forall c :: c in CollapseFrom(s, inRun) ==> c == '_' || c in s
  {
    if s != [] {
      CollapseCharacters(s[1..], Text.IsJsWhitespace(s[0]));
      assert forall c :: c in s[1..] ==> c in s;
    }
  }

  /** `sanitizeFileName(name)`. */
  function SanitizeFileName(name: string): (r: string)
    ensures |r| <= |name|
    ensures NoWhitespace(r) && AllAllowed(r)
  {
    var kept := KeepAllowed(name);
    var r := CollapseWhitespace(kept);
    CollapseNoWhitespace(kept, false);
    assert forall i :: 0 <= i < |r| ==> Allowed(r[i]) by {
      CollapseCharacters(kept, false);
      forall i | 0 <= i < |r|
        ensures Allowed(r[i])
      {
        assert r[i] in r;
      }
    }
    r
  }

  /** The filter works character by character: filtering a concatenation filters each part. */
  lemma {:induction false} KeepAllowedAppend(a: string, b: string)
    ensures KeepAllowed(a + b) == KeepAllowed(a) + KeepAllowed(b)
  {
    if a == [] {
      assert a + b == b;
    } else {
      assert (a + b)[0] == a[0];
      assert (a + b)[1..] == a[1..] + b;
      KeepAllowedAppend(a[1..], b);
    }
  }

  /** Text made only of allowed characters passes the filter unchanged. */
  lemma {:induction false} KeepAllowedIdentity(s: string)
    requires AllAllowed(s)
    ensures KeepAllowed(s) == s
  {
    if s != [] {
      KeepAllowedIdentity(s[1..]);
    }
  }

  /** Text without whitespace passes the collapse unchanged, whatever came before it. */
  lemma {:induction false} CollapseIdentity(s: string, inRun: bool)
    requires NoWhitespace(s)
    ensures CollapseFrom(s, inRun) == s
  {
    if s != [] {
      assert !Text.IsJsWhitespace(s[0]);
      CollapseIdentity(s[1..], false);
    }
  }

  /** Whitespace in the middle of a run writes nothing. */
  lemma {:induction false} CollapseInsideRun(w: string, s: string)
    requires Text.AllWhitespace(w)
    ensures CollapseFrom(w + s, true) == CollapseFrom(s, true)
  {
    if w == [] {
      assert w + s == s;
    } else {
      assert (w + s)[0] == w[0];
      assert (w + s)[1..] == w[1..] + s;
      CollapseInsideRun(w[1..], s);
    }
  }

  /** A whitespace run, then text that starts otherwise: the run becomes one underscore. */
  lemma CollapseRun(w: string, s: string)
    requires w != [] && Text.AllWhitespace(w)
    requires s == [] || !Text.IsJsWhitespace(s[0])
    ensures CollapseWhitespace(w + s) == "_" + CollapseWhitespace(s)
  {
    assert (w + s)[0] == w[0];
    assert (w + s)[1..] == w[1..] + s;
    CollapseInsideRun(w[1..], s);
  }

  /** Appending text without whitespace commutes with the collapse. */
  lemma {:induction false} CollapseAppendPlain(a: string, b: string, inRun: bool)
    requires NoWhitespace(b)
    ensures CollapseFrom(a + b, inRun) == CollapseFrom(a, inRun) + b
  {
    if a == [] {
      assert a + b == b;
      CollapseIdentity(b, inRun);
    } else {
      var head := if Text.IsJsWhitespace(a[0]) then (if inRun then [] else "_") else [a[0]];
      var next := Text.IsJsWhitespace(a[0]);
      assert (a + b)[0] == a[0];
      assert (a + b)[1..] == a[1..] + b;
      CollapseAppendPlain(a[1..], b, next);
      assert head + (CollapseFrom(a[1..], next) + b) == (head + CollapseFrom(a[1..], next)) + b;
    }
  }

  /** Sanitising twice is sanitising once. */
  lemma SanitizeIdempotent(name: string)
    ensures SanitizeFileName(SanitizeFileName(name)) == SanitizeFileName(name)
  {
    var r := SanitizeFileName(name);
    KeepAllowedIdentity(r);
    CollapseIdentity(r, false);
  }

  /**
    The only whitespace character the filter lets through is the space: a
    tab or a line break is deleted rather than turned into an underscore.
  */
  lemma OnlySpaceSurvivesFilter(c: char)
    requires Allowed(c) && Text.IsJsWhitespace(c)
    ensures c == ' '
  {
  }

  /** A tab between two words disappears. */
  lemma TabIsDeleted()
    ensures SanitizeFileName("a\tb") == "ab"
  {
    assert KeepAllowed("a\tb") == "ab" by {
      assert "a\tb"[1..] == "\tb";
      assert "\tb"[1..] == "b";
    }
    CollapseIdentity("ab", false);
  }

  /** A run of spaces between two words becomes one underscore. */
  lemma SpacesBecomeOneUnderscore()
    ensures SanitizeFileName("a  b") == "a_b"
  {
    KeepAllowedIdentity("a  b");
    assert "a  b"[1..] == "  " + "b";
    CollapseRun("  ", "b");
    CollapseIdentity("b", false);
  }

  const VideoExtension: string := ".webm"
  const DefaultTitle: string := "anime-video"

  /** `sanitizeFileName((titleInput.value || 'anime-video') + '.webm')`: only an empty title falls back. */
  function DownloadName(title: string): (r: string)
    ensures |r| <= |title| + 16
  {
    SanitizeFileName((if title == [] then DefaultTitle else title) + VideoExtension)
  }

  /** The download name always ends in `.webm`, after the sanitised title. */
  lemma DownloadNameExtension(title: string)
    ensures DownloadName(title) == SanitizeFileName(if title == [] then DefaultTitle else title) + VideoExtension
  {
    var base := if title == [] then DefaultTitle else title;
    KeepAllowedAppend(base, VideoExtension);
    KeepAllowedIdentity(VideoExtension);
    CollapseAppendPlain(KeepAllowed(base), VideoExtension, false);
  }
}
