/**
  The spam classifier of the moderation bot (`is_spam_text`): a message is spam when its
  lower-cased text contains one of the literal phrases of `BAN_PATTERNS` or something
  `URL_REGEX` matches. The regular expression is stated as a predicate over indices.

  Lower-casing (Python's `str.lower`) is not re-implemented: every member that needs it
  takes it as a parameter `lower`.
*/
module SpamFilter {
  import opened Options

  /** `BAN_PATTERNS`, in source order (the dashes are U+2013 and U+2014 where the source has them). */
  const BanPatterns: seq<string> := [
    "ищу помощников для онлайн-работы",
    "занятость: 1\U{2013}3 часа в день",
    "занятость: 1-3 часа в день",
    "доход: от $",
    "опыт не требуется \U{2014} всему обучаю",
    "опыт не требуется - всему обучаю",
    "онлайн-работа",
    "работа онлайн"
  ]

  /**
    The literal heads of the alternatives of `URL_REGEX`: `https?://` contributes two,
    `t\.me/` and `www\.` one each. Each is followed by `\S+` in the pattern.
  */
  const UrlPrefixes: seq<string> := ["http://", "https://", "t.me/", "www."]

  // ---------------------------------------------------------------------------
  // Literal phrases

  /** `p` is a contiguous substring of `t` (Python's `p in t`). */
  ghost predicate Occurs(p: string, t: string) {
    exists i :: OccursAt(p, t, i)
  }

  /** `p` is found in `t` starting at index `i`. */
  ghost predicate OccursAt(p: string, t: string, i: int) {
    0 <= i <= |t| - |p| && t[i..i + |p|] == p
  }

  /** Some phrase of `ps` occurs in `t`. */
  ghost predicate AnyOccurs(ps: seq<string>, t: string) {
    exists k :: 0 <= k < |ps| && Occurs(ps[k], t)
  }

  /** One step of the left-to-right scan: when `p` is not a prefix of `t`, it occurs in `t` iff it occurs in `t[1..]`. */
  lemma {:induction false} OccursInTail(p: string, t: string)
    requires |p| <= |t| && !(p <= t)
    ensures Occurs(p, t) <==> Occurs(p, t[1..])
  {
    if Occurs(p, t) {
      var i :| OccursAt(p, t, i);
      assert i != 0;
      assert t[1..][i - 1..i - 1 + |p|] == p;
      assert OccursAt(p, t[1..], i - 1);
    }
    if Occurs(p, t[1..]) {
      var i :| OccursAt(p, t[1..], i);
      assert t[i + 1..i + 1 + |p|] == p;
      assert OccursAt(p, t, i + 1);
    }
  }

  /** Substring search by scanning `t` from the left. */
  function Contains(t: string, p: string): (r: bool)
    ensures r <==> Occurs(p, t)
    decreases |t|
  {
    if |t| < |p| then false
    else if p <= t then (assert OccursAt(p, t, 0); true)
    else (OccursInTail(p, t); Contains(t[1..], p))
  }

  /** `any(p in t for p in ps)`. */
  function AnyPhrase(t: string, ps: seq<string>): (r: bool)
    ensures r <==> AnyOccurs(ps, t)
  {
    if ps == [] then false
    else
      var rest := AnyPhrase(t, ps[1..]);
      assert rest <==> exists k :: 1 <= k < |ps| && Occurs(ps[k], t) by {
        forall k | 1 <= k < |ps| ensures ps[1..][k - 1] == ps[k] { }
      }
      Contains(t, ps[0]) || rest
  }

  // ---------------------------------------------------------------------------
  // URL_REGEX

  /** Python's `\s` on text: exactly the characters `str.isspace` accepts. */
  predicate IsSpace(c: char) {
    || ('\t' <= c <= '\r')
    || ('\U{1C}' <= c <= '\U{1F}')
    || c == ' '
    || c == '\U{85}'
    || c == '\U{A0}'
    || c == '\U{1680}'
    || ('\U{2000}' <= c <= '\U{200A}')
    || c == '\U{2028}'
    || c == '\U{2029}'
    || c == '\U{202F}'
    || c == '\U{205F}'
    || c == '\U{3000}'
  }

  /**
    `c` matches the pattern character `p` under `re.IGNORECASE`, for the characters that
    occur in `UrlPrefixes`: a lower-case ASCII letter also matches its upper-case form,
    and `s` also matches LATIN SMALL LETTER LONG S; punctuation matches only itself.
  */
  predicate FoldMatch(c: char, p: char) {
    || c == p
    || ('a' <= p <= 'z' && c as int == p as int - 32)
    || (p == 's' && c == '\U{017F}')
  }

  /** `t` has prefix `p` at index `i`, case-insensitively. */
  predicate PrefixAt(t: string, i: nat, p: string) {
    i + |p| <= |t| && forall j :: 0 <= j < |p| ==> FoldMatch(t[i + j], p[j])
  }

  /** The alternative with head `p` matches at `i`: the head, then at least one non-space character. */
  predicate TokenAt(t: string, i: nat, p: string) {
    PrefixAt(t, i, p) && i + |p| < |t| && !IsSpace(t[i + |p|])
  }

  /** `URL_REGEX.match(t, i)` succeeds. */
  predicate UrlAt(t: string, i: nat) {
    exists k :: 0 <= k < |UrlPrefixes| && TokenAt(t, i, UrlPrefixes[k])
  }

  /** `URL_REGEX.search(t)` finds a match. */
  ghost predicate HasUrl(t: string) {
    exists i: nat :: i < |t| && UrlAt(t, i)
  }

  /** The search from index `i` on. */
  function FindsUrlFrom(t: string, i: nat): (r: bool)
    requires i <= |t|
    ensures r <==> exists j: nat :: i <= j < |t| && UrlAt(t, j)
    decreases |t| - i
  {
    if i == |t| then false else UrlAt(t, i) || FindsUrlFrom(t, i + 1)
  }

  // ---------------------------------------------------------------------------
  // is_spam_text

  /** The spam verdict on text that has already been lower-cased. */
  ghost predicate SpamLowered(t: string) {
    HasUrl(t) || AnyOccurs(BanPatterns, t)
  }

  /**
    `is_spam_text`: absent or empty text is never spam; otherwise the text is lower-cased
    and is spam when the URL pattern or one of the phrases is found in it.
  */
  function IsSpamText(text: Option<string>, lower: string -> string): (r: bool)
    ensures r <==> text.Some? && text.value != "" && SpamLowered(lower(text.value))
    ensures text == None || text == Some("") ==> !r
  {
    match text
    case None => false
    case Some(s) =>
      if s == "" then false
      else
        var t := lower(s);
        FindsUrlFrom(t, 0) || AnyPhrase(t, BanPatterns)
  }

  // ---------------------------------------------------------------------------
  // Properties

  /** A phrase found in `t` is still found when text is added on either side. */
  lemma OccursPadded(p: string, a: string, t: string, b: string)
    requires Occurs(p, t)
    ensures Occurs(p, a + t + b)
  {
    var i :| OccursAt(p, t, i);
    var u := a + t + b;
    assert u[|a| + i..|a| + i + |p|] == t[i..i + |p|];
    assert OccursAt(p, u, |a| + i);
  }

  /** A URL match in `t` is still a match, shifted by `|a|`, when text is added on either side. */
  lemma UrlAtPadded(a: string, t: string, b: string, i: nat)
    requires i < |t| && UrlAt(t, i)
    ensures UrlAt(a + t + b, |a| + i)
  {
    var u := a + t + b;
    var k :| 0 <= k < |UrlPrefixes| && TokenAt(t, i, UrlPrefixes[k]);
    var p := UrlPrefixes[k];
    assert u[|a| + i + |p|] == t[i + |p|];
    forall j | 0 <= j < |p| ensures FoldMatch(u[|a| + i + j], p[j]) {
      assert u[|a| + i + j] == t[i + j];
    }
    assert TokenAt(u, |a| + i, p);
  }

  /** Padding spam with other text never makes it pass: the verdict is monotone under extension. */
  lemma SpamSurvivesPadding(a: string, t: string, b: string)
    requires SpamLowered(t)
    ensures SpamLowered(a + t + b)
  {
    if HasUrl(t) {
      var i: nat :| i < |t| && UrlAt(t, i);
      UrlAtPadded(a, t, b, i);
      assert |a| + i < |a + t + b|;
    } else {
      var k :| 0 <= k < |BanPatterns| && Occurs(BanPatterns[k], t);
      OccursPadded(BanPatterns[k], a, t, b);
    }
  }

  /** A phrase holding a character that `t` lacks cannot occur in `t`. */
  lemma AbsentCharBlocks(p: string, t: string, j: nat)
    requires j < |p| && p[j] !in t
    ensures !Occurs(p, t)
  {
  }

  /** Every URL match needs a `/` or a `.` somewhere in the text. */
  lemma UrlNeedsPunctuation(t: string, i: nat)
    requires UrlAt(t, i)
    ensures '/' in t || '.' in t
  {
    var k :| 0 <= k < |UrlPrefixes| && TokenAt(t, i, UrlPrefixes[k]);
    var p := UrlPrefixes[k];
    if k == 0 {
      assert p[5] == '/' && FoldMatch(t[i + 5], p[5]);
    } else if k == 1 {
      assert p[6] == '/' && FoldMatch(t[i + 6], p[6]);
    } else if k == 2 {
      assert p[1] == '.' && FoldMatch(t[i + 1], p[1]);
    } else {
      assert p[3] == '.' && FoldMatch(t[i + 3], p[3]);
    }
  }

  /** A typical job-offer message, which holds the first phrase of `BanPatterns`, is spam. */
  lemma JobOfferIsSpam(s: string, lower: string -> string)
    requires s != ""
    requires lower(s) == "ищу помощников для онлайн-работы, доход: от $500"
    ensures IsSpamText(Some(s), lower)
  {
    var t := lower(s);
    var p := BanPatterns[0];
    assert t[0..|p|] == p;
    assert OccursAt(p, t, 0);
  }

  /** An ordinary sentence with no link and no phrase is not spam. */
  lemma SmallTalkIsClean(s: string, lower: string -> string)
    requires lower(s) == "see you at the park tomorrow"
    ensures !IsSpamText(Some(s), lower)
  {
    var t := lower(s);
    var o := 'о';  // CYRILLIC SMALL LETTER O, present in every phrase
    assert o !in t;
    var at: seq<nat> := [5, 5, 5, 1, 0, 0, 0, 3];
    forall k | 0 <= k < |BanPatterns| ensures !Occurs(BanPatterns[k], t) {
      assert BanPatterns[k][at[k]] == o;
      AbsentCharBlocks(BanPatterns[k], t, at[k]);
    }
    assert '/' !in t && '.' !in t;
    forall i: nat | i < |t| ensures !UrlAt(t, i) {
      if UrlAt(t, i) { UrlNeedsPunctuation(t, i); }
    }
  }
}
