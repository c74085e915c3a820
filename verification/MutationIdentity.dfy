/** Identities of the management plane: object versions, style object paths,
    digests and the canonical input of one publication.

    SHA-256 is taken to be injective: a digest is a free constructor over the
    domain (the constructor) and the digested content (its fields).
  */
module MutationIdentity {
  import opened Text

  const NUL: char := '\0'
  const MAX_VERSION_PART_LEN: nat := 1024
  const MAX_STYLE_BYTES: nat := 2 * 1024 * 1024

  // ---- Version evidence --------------------------------------------------

  datatype VersionEvidence = VersionEvidence(eTag: Option<string>, version: Option<string>)

  /** `char::is_control` seen on UTF-8 bytes: C0, DEL, and C1 (0xC2 0x80..0x9F). */
  predicate ControlAt(s: string, i: nat)
    requires i < |s|
  {
    || s[i] < ' '
    || s[i] == 0x7F as char
    || (s[i] == 0xC2 as char && i + 1 < |s| && 0x80 as char <= s[i + 1] <= 0x9F as char)
  }

  predicate UsablePart(s: string) {
    s != "" && |s| <= MAX_VERSION_PART_LEN && forall i: nat | i < |s| :: !ControlAt(s, i)
  }

  predicate UsableEvidence(e: VersionEvidence) {
    && (e.eTag.Some? || e.version.Some?)
    && (e.eTag.Some? ==> UsablePart(e.eTag.value))
    && (e.version.Some? ==> UsablePart(e.version.value))
  }

  /** Evidence accepted by `VersionEvidence::try_new`. */
  type Evidence = e: VersionEvidence | UsableEvidence(e) witness VersionEvidence(Some("e"), None)

  function PartText(part: Option<string>): string {
    match part case None => "" case Some(value) => value
  }

  function TextPart(text: string): Option<string> {
    if text == "" then None else Some(text)
  }

  function VersionIdentity(e: VersionEvidence): string {
    PartText(e.eTag) + [NUL] + PartText(e.version)
  }

  lemma UsableEvidenceParts(e: Evidence)
    ensures NUL !in PartText(e.eTag) && NUL !in PartText(e.version)
    ensures TextPart(PartText(e.eTag)) == e.eTag && TextPart(PartText(e.version)) == e.version
  {
    forall part | (part == e.eTag || part == e.version) && part.Some?
      ensures NUL !in part.value
    {
      forall i: nat | i < |part.value| ensures part.value[i] != NUL {
        assert !ControlAt(part.value, i);
      }
    }
  }

  // ---- Style object paths ------------------------------------------------

  datatype Layout = Nested | Flat

  const PREFIX := "styles/"
  const NESTED := "/style.json"
  const FLAT := ".json"

  datatype StylePath = StylePath(path: string, styleId: string, layout: Layout)

  predicate PathIdChar(c: char) {
    'a' <= c <= 'z' || 'A' <= c <= 'Z' || '0' <= c <= '9' || c == '-' || c == '_'
  }

  predicate Segment(s: string, max: nat) {
    0 < |s| <= max && forall i | 0 <= i < |s| :: PathIdChar(s[i])
  }

  function StripPrefix(s: string, prefix: string): Option<string> {
    if prefix <= s then Some(s[|prefix|..]) else None
  }

  function StripSuffix(s: string, suffix: string): Option<string> {
    if |suffix| <= |s| && s[|s| - |suffix|..] == suffix then Some(s[..|s| - |suffix|]) else None
  }

  /** `StyleKey::parse`: exactly two bounded segments. */
  predicate CanonicalStyleKey(s: string) {
    match SplitOnce(s, '/')
    case None => false
    case Some((namespace, styleId)) =>
      '/' !in styleId && Segment(namespace, 64) && Segment(styleId, 128)
  }

  /** Which of the two layouts a path matches; the nested suffix is tried first. */
  function MatchLayout(path: string, prefix: string, nested: string, flat: string): Option<StylePath> {
    match StripPrefix(path, prefix)
    case None => None
    case Some(rest) =>
      match StripSuffix(rest, nested)
      case Some(id) => if CanonicalStyleKey(id) then Some(StylePath(path, id, Nested)) else None
      case None =>
        match StripSuffix(rest, flat)
        case Some(id) => if CanonicalStyleKey(id) then Some(StylePath(path, id, Flat)) else None
        case None => None
  }

  /** `StyleObjectPath::try_new`. */
  function TryStylePath(path: string): Option<StylePath> {
    MatchLayout(path, PREFIX, NESTED, FLAT)
  }

  function RelativePath(account: string, style: string, layout: Layout): string {
    match layout
    case Nested => PREFIX + (account + "/" + style + NESTED)
    case Flat => PREFIX + (account + "/" + style + FLAT)
  }

  /** `StyleObjectPath::for_resource`. */
  function ForResource(account: string, style: string, layout: Layout): Option<StylePath> {
    if Segment(account, 64) && Segment(style, 128) then TryStylePath(RelativePath(account, style, layout))
    else None
  }

  lemma SegmentChars(s: string, max: nat)
    requires Segment(s, max)
    ensures '/' !in s && NUL !in s && '.' !in s
  {}

  lemma CanonicalKeyOf(account: string, style: string)
    requires Segment(account, 64) && Segment(style, 128)
    ensures CanonicalStyleKey(account + "/" + style) && !CanonicalStyleKey(account)
  {
    SegmentChars(account, 64);
    SegmentChars(style, 128);
    SplitOnceAtFirst(account, '/', style);
    SplitOnceParts(account, '/');
  }

  lemma StripAppended(prefix: string, body: string, suffix: string)
    ensures StripPrefix(prefix + body, prefix) == Some(body)
    ensures StripSuffix(body + suffix, suffix) == Some(body)
  {
    assert (prefix + body)[|prefix|..] == body;
    assert (body + suffix)[|body|..] == suffix;
    assert (body + suffix)[..|body|] == body;
  }

  /** With a single slash in the path, a suffix starting at a slash fixes the
      whole last segment. */
  lemma SuffixFromOnlySlash(account: string, style: string, word: string, tail: string)
    requires '/' !in account && '/' !in style && '/' !in tail
    ensures StripSuffix(account + "/" + style + tail, "/" + word + tail) ==
            if style == word then Some(account) else None
  {
    var rest := account + "/" + style + tail;
    var suffix := "/" + word + tail;
    if |suffix| <= |rest| && rest[|rest| - |suffix|..] == suffix {
      assert rest[|rest| - |suffix|] == suffix[0] == '/';
      assert |rest| - |suffix| == |account|;
      assert style == rest[|account|..][1..1 + |style|] == word;
      assert rest[..|account|] == account;
    }
    if style == word {
      assert rest[|account|..] == suffix;
    }
  }

  lemma MatchLayoutOfParts(account: string, style: string, prefix: string, word: string, flat: string)
    requires Segment(account, 64) && Segment(style, 128) && '/' !in flat
    ensures
      var id, nested := account + "/" + style, "/" + word + flat;
      && MatchLayout(prefix + (id + nested), prefix, nested, flat) ==
           Some(StylePath(prefix + (id + nested), id, Nested))
      && MatchLayout(prefix + (id + flat), prefix, nested, flat) ==
           if style == word then None else Some(StylePath(prefix + (id + flat), id, Flat))
  {
    SegmentChars(account, 64);
    SegmentChars(style, 128);
    CanonicalKeyOf(account, style);
    var id, nested := account + "/" + style, "/" + word + flat;
    StripAppended(prefix, id + nested, nested);
    StripAppended("", id, nested);
    StripAppended(prefix, id + flat, flat);
    StripAppended("", id, flat);
    SuffixFromOnlySlash(account, style, word, flat);
  }

  /** Every canonical account and style id has an object path, except that under
      the flat layout the id `style` is read as a nested path with no id left. */
  lemma ForResourceResolves(account: string, style: string, layout: Layout)
    requires Segment(account, 64) && Segment(style, 128)
    ensures ForResource(account, style, layout) ==
            if layout.Flat? && style == "style" then None
            else Some(StylePath(RelativePath(account, style, layout), account + "/" + style, layout))
  {
    MatchLayoutOfParts(account, style, PREFIX, "style", FLAT);
    assert NESTED == "/" + "style" + FLAT;
  }

  /** A usable id: letters, digits, dash and underscore, from one to `max` of them. */
  predicate UsableId(s: string, max: nat) {
    && 1 <= |s| <= max
    && forall i | 0 <= i < |s| ::
         'a' <= s[i] <= 'z' || 'A' <= s[i] <= 'Z' || '0' <= s[i] <= '9' || s[i] in {'-', '_'}
  }

  lemma SegmentIsUsable(s: string, max: nat)
    ensures Segment(s, max) <==> UsableId(s, max)
  {}

  /** The paths a style can be stored at, and what they name. */
  ghost predicate Names(p: string, account: string, style: string, layout: Layout) {
    && UsableId(account, 64) && UsableId(style, 128) && (layout.Flat? ==> style != "style")
    && p == match layout
            case Nested => "styles/" + (account + "/" + style + "/style.json")
            case Flat => "styles/" + (account + "/" + style + ".json")
  }

  lemma CanonicalParts(id: string) returns (account: string, style: string)
    requires CanonicalStyleKey(id)
    ensures Segment(account, 64) && Segment(style, 128) && id == account + "/" + style
  {
    SplitOnceParts(id, '/');
    account, style := SplitOnce(id, '/').value.0, SplitOnce(id, '/').value.1;
  }

  /** A path is accepted exactly when it names a style in one of the two layouts. */
  lemma PathsExactly(p: string)
    ensures TryStylePath(p).Some? <==> exists account, style, layout :: Names(p, account, style, layout)
  {
    if TryStylePath(p).Some? {
      AcceptedNames(p);
    }
    if account, style, layout :| Names(p, account, style, layout) {
      hide UsableId, TryStylePath;
      SegmentIsUsable(account, 64);
      SegmentIsUsable(style, 128);
      ForResourceResolves(account, style, layout);
    }
  }

  lemma MatchedNames(p: string, prefix: string, word: string, flat: string)
    returns (account: string, style: string, layout: Layout)
    requires MatchLayout(p, prefix, "/" + word + flat, flat).Some? && '/' !in flat
    ensures Segment(account, 64) && Segment(style, 128) && (layout.Flat? ==> style != word)
    ensures p == prefix + (account + "/" + style + if layout.Nested? then "/" + word + flat else flat)
  {
    hide CanonicalStyleKey, Segment, StripPrefix, StripSuffix;
    var nested := "/" + word + flat;
    var t := MatchLayout(p, prefix, nested, flat).value;
    account, style := CanonicalParts(t.styleId);
    layout := t.layout;
    StrippedParts(p, prefix);
    var rest := StripPrefix(p, prefix).value;
    StrippedParts(rest, nested);
    StrippedParts(rest, flat);
    if layout.Flat? {
      SegmentChars(account, 64);
      SegmentChars(style, 128);
      SuffixFromOnlySlash(account, style, word, flat);
    }
  }

  lemma AcceptedNames(p: string)
    requires TryStylePath(p).Some?
    ensures exists account, style, layout :: Names(p, account, style, layout)
  {
    hide MatchLayout, Segment, UsableId;
    assert NESTED == "/" + "style" + FLAT;
    var account, style, layout := MatchedNames(p, PREFIX, "style", FLAT);
    SegmentIsUsable(account, 64);
    SegmentIsUsable(style, 128);
    assert Names(p, account, style, layout);
  }

  lemma CanonicalKeyHasNoNul(id: string)
    requires CanonicalStyleKey(id)
    ensures NUL !in id
  {
    SplitOnceParts(id, '/');
    var (namespace, styleId) := SplitOnce(id, '/').value;
    SegmentChars(namespace, 64);
    SegmentChars(styleId, 128);
  }

  lemma StrippedParts(s: string, affix: string)
    ensures StripPrefix(s, affix).Some? ==> s == affix + StripPrefix(s, affix).value
    ensures StripSuffix(s, affix).Some? ==> s == StripSuffix(s, affix).value + affix
  {}

  lemma MatchedChars(path: string, prefix: string, nested: string, flat: string)
    requires MatchLayout(path, prefix, nested, flat).Some?
    requires NUL !in prefix && NUL !in nested && NUL !in flat
    ensures NUL !in path
  {
    CanonicalKeyHasNoNul(MatchLayout(path, prefix, nested, flat).value.styleId);
    StrippedParts(path, prefix);
    var rest := StripPrefix(path, prefix).value;
    StrippedParts(rest, nested);
    StrippedParts(rest, flat);
  }

  /** A valid style object path never contains the identity separator. */
  lemma StylePathHasNoNul(path: string)
    requires TryStylePath(path).Some?
    ensures NUL !in path
  {
    MatchedChars(path, PREFIX, NESTED, FLAT);
  }

  type Location = p: string | TryStylePath(p).Some? witness WitnessLocation()

  function WitnessLocation(): (p: string)
    ensures TryStylePath(p).Some?
  {
    ForResourceResolves("a", "b", Flat);
    RelativePath("a", "b", Flat)
  }

  // ---- Digests and the publication input ---------------------------------

  datatype Digest =
    | KeyDigest(idempotencyKey: string)
    | InputDigest(identity: string)
    | ContentDigest(body: string)
    | StateDigest(location: string, content: Digest, version: VersionEvidence)

  datatype StylePrecondition = MustNotExist | MustMatch(expected: Evidence)

  function PreconditionText(p: StylePrecondition): string {
    match p
    case MustNotExist => "create"
    case MustMatch(expected) => "replace" + [NUL] + VersionIdentity(expected)
  }

  /** `style_input_identity`: the canonical bytes of one publication. */
  function StyleInputIdentity(location: string, p: StylePrecondition, body: string): string {
    location + [NUL] + PreconditionText(p) + [NUL] + body
  }

  datatype StyleInput = StyleInput(location: string, replaced: Option<VersionEvidence>, body: string)

  /** Reads the canonical bytes back; the body may contain anything, NUL included. */
  function ParseInputIdentity(identity: string): Option<StyleInput> {
    match SplitOnce(identity, NUL)
    case None => None
    case Some((location, afterLocation)) =>
      match SplitOnce(afterLocation, NUL)
      case None => None
      case Some((kind, rest)) =>
        if kind == "create" then Some(StyleInput(location, None, rest))
        else
          match SplitOnce(rest, NUL)
          case None => None
          case Some((eTag, afterTag)) =>
            match SplitOnce(afterTag, NUL)
            case None => None
            case Some((version, body)) =>
              Some(StyleInput(location, Some(VersionEvidence(TextPart(eTag), TextPart(version))), body))
  }

  function ReplacedVersion(p: StylePrecondition): Option<VersionEvidence> {
    match p case MustNotExist => None case MustMatch(expected) => Some(expected)
  }

  lemma InputIdentityRoundTrip(location: Location, p: StylePrecondition, body: string)
    ensures ParseInputIdentity(StyleInputIdentity(location, p, body)) ==
            Some(StyleInput(location, ReplacedVersion(p), body))
  {
    StylePathHasNoNul(location);
    var afterLocation := PreconditionText(p) + [NUL] + body;
    assert StyleInputIdentity(location, p, body) == location + [NUL] + afterLocation;
    SplitOnceAtFirst(location, NUL, afterLocation);
    match p
    case MustNotExist =>
      SplitOnceAtFirst("create", NUL, body);
    case MustMatch(expected) =>
      UsableEvidenceParts(expected);
      var eTag, version := PartText(expected.eTag), PartText(expected.version);
      var rest := eTag + [NUL] + (version + [NUL] + body);
      assert afterLocation == "replace" + [NUL] + rest;
      SplitOnceAtFirst("replace", NUL, rest);
      SplitOnceAtFirst(eTag, NUL, version + [NUL] + body);
      SplitOnceAtFirst(version, NUL, body);
  }

  /** Equal canonical bytes are the same publication. */
  lemma InputIdentityInjective(l1: Location, p1: StylePrecondition, b1: string,
                               l2: Location, p2: StylePrecondition, b2: string)
    requires StyleInputIdentity(l1, p1, b1) == StyleInputIdentity(l2, p2, b2)
    ensures l1 == l2 && p1 == p2 && b1 == b2
  {
    InputIdentityRoundTrip(l1, p1, b1);
    InputIdentityRoundTrip(l2, p2, b2);
  }
}
