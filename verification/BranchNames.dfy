/** Git branch names: validation, and names generated deterministically from a run and a plan. */
module BranchNames {
  import opened Wrappers
  import opened Lists
  import opened Text

  const DEFAULT_BRANCH_PREFIX := "bek"
  const DEFAULT_BRANCH_MAX_LENGTH := 60
  const BRANCH_HASH_LENGTH := 12

  // ---------------------------------------------------------------- validation

  predicate ForbiddenInRef(c: char) {
    c as int <= 0x1F || c as int == 0x7F || c in " ~^:?*[\\"
  }

  predicate StartsWithDot(part: string) {
    part != "" && part[0] == '.'
  }

  predicate AnyPart(parts: seq<string>, p: string -> bool) {
    exists part :: part in parts && p(part)
  }

  const STARTS_DOTTED: string -> bool := (part: string) => StartsWithDot(part)
  const ENDS_LOCKED: string -> bool := (part: string) => EndsWith(part, ".lock")

  predicate BadRef(name: string) {
    || (name != "" && name[0] == '/') || EndsWith(name, "/") || EndsWith(name, ".")
    || HasPair(name, '/', '/') || HasPair(name, '.', '.') || HasPair(name, '@', '{')
    || (exists c :: c in name && ForbiddenInRef(c))
    || AnyPart(Split(name, '/'), STARTS_DOTTED)
  }

  function NormalizeBranchName(branch: string): (r: Result<string>)
    ensures r.Ok? ==> Trimmed(r.value)
  {
    var normalized := Trim(branch);
    if normalized == "" then Err("GitHub branch name is required.")
    else if |normalized| > 255 then Err("GitHub branch name must be 255 characters or fewer.")
    else if BadRef(normalized) then Err("GitHub branch name is not a valid git ref name.")
    else if AnyPart(Split(normalized, '/'), ENDS_LOCKED) then
      Err("GitHub branch name cannot contain .lock ref segments.")
    else Ok(normalized)
  }

  /** A normalised name is left alone. */
  lemma BranchNameFixpoint(branch: string)
    requires NormalizeBranchName(branch).Ok?
    ensures NormalizeBranchName(NormalizeBranchName(branch).value) == NormalizeBranchName(branch)
  {
  }

  // ---------------------------------------------------------------- sanitising

  predicate RefSafe(c: char) {
    'a' <= c <= 'z' || '0' <= c <= '9' || c == '.' || c == '_' || c == '/' || c == '-'
  }

  predicate Edge(c: char) {
    c == '-' || c == '.'
  }

  function TrimLeadingEdges(s: string): (r: string)
    ensures |r| <= |s| && r == s[|s| - |r|..]
    ensures r != "" ==> !Edge(r[0])
    ensures s != "" && !Edge(s[0]) ==> r == s
  {
    if s != "" && Edge(s[0]) then TrimLeadingEdges(s[1..]) else s
  }

  function TrimTrailingEdges(s: string): (r: string)
    ensures |r| <= |s| && r == s[..|r|]
    ensures r != "" ==> !Edge(r[|r| - 1])
    ensures s != "" && !Edge(s[0]) ==> r != ""
  {
    if s != "" && Edge(s[|s| - 1]) then TrimTrailingEdges(s[..|s| - 1]) else s
  }

  function TrimBranchEdges(s: string): string {
    TrimTrailingEdges(TrimLeadingEdges(s))
  }

  const IS_DOT: char -> bool := (c: char) => c == '.'
  const IS_SLASH: char -> bool := (c: char) => c == '/'
  const IS_DASH: char -> bool := (c: char) => c == '-'
  const IS_UNSAFE: char -> bool := (c: char) => !RefSafe(c)

  function SanitizeBranchSegment(value: string): string {
    var lowered := Lower(Trim(value));
    var dashed := CollapseRuns(lowered, IS_UNSAFE, '-');
    var undotted := CollapseRuns(dashed, IS_DOT, '.');
    var flat := CollapseRuns(undotted, IS_SLASH, '-');
    TrimBranchEdges(CollapseRuns(flat, IS_DASH, '-'))
  }

  function SanitizeAll(values: seq<string>): seq<string> {
    if values == [] then [] else [SanitizeBranchSegment(values[0])] + SanitizeAll(values[1..])
  }

  /** The nonempty sanitised components of a prefix. */
  function PrefixParts(value: string): seq<string> {
    NonEmpty(SanitizeAll(Split(value, '/')))
  }

  function SanitizeBranchPrefix(value: string): string {
    Join(PrefixParts(value), "/")
  }

  function JoinBranchSegments(segments: seq<string>): string {
    CollapseRuns(Join(NonEmpty(segments), "-"), IS_DASH, '-')
  }

  function NormalizeMaxLength(maxLength: Option<int>): Result<int> {
    match maxLength
    case None => Ok(DEFAULT_BRANCH_MAX_LENGTH)
    case Some(n) =>
      if n <= 0 || n > 255 then Err("GitHub branch maxLength must be a positive integer no greater than 255.")
      else Ok(n)
  }

  // ---------------------------------------------------------------- generation

  datatype BranchInput = BranchInput(
    runId: string, planHash: string, slug: Option<string>, prefix: Option<string>, maxLength: Option<int>)

  /** The hash is not modelled: `sha256` stands for its hexadecimal digest of a text. */
  type Digest = string -> string

  ghost predicate IsHexDigest(sha256: Digest) {
    forall text :: |sha256(text)| == 64 && forall c :: c in sha256(text) ==> '0' <= c <= '9' || 'a' <= c <= 'f'
  }

  function Prefix(input: BranchInput): string {
    if input.prefix.Some? then input.prefix.value else DEFAULT_BRANCH_PREFIX
  }

  function SlugSegment(input: BranchInput): string {
    if input.slug.Some? then SanitizeBranchSegment(input.slug.value) else ""
  }

  function DigestSegment(planHash: string, sha256: Digest): (r: string)
    requires |sha256(Trim(planHash))| >= BRANCH_HASH_LENGTH
    ensures |r| == BRANCH_HASH_LENGTH
  {
    sha256(Trim(planHash))[..BRANCH_HASH_LENGTH]
  }

  /** What is left of `maxLength` for the run id and the slug. */
  function VariableBudget(input: BranchInput, maxLength: int): int {
    maxLength - (|SanitizeBranchPrefix(Prefix(input))| + 1) - (1 + BRANCH_HASH_LENGTH)
  }

  function Middle(input: BranchInput, budget: int): string
    requires budget >= 1
  {
    var joined := JoinBranchSegments([SanitizeBranchSegment(input.runId), SlugSegment(input)]);
    TrimBranchEdges(if |joined| <= budget then joined else joined[..budget])
  }

  function CreateBranchName(input: BranchInput, sha256: Digest): Result<string>
    requires |sha256(Trim(input.planHash))| == 64
  {
    var prefix := SanitizeBranchPrefix(Prefix(input));
    if prefix == "" then Err("GitHub branch prefix must contain ref-safe characters.")
    else if SanitizeBranchSegment(input.runId) == "" then Err("GitHub branch runId must contain ref-safe characters.")
    else if Trim(input.planHash) == "" then Err("GitHub branch planHash is required.")
    else
      var maxLength :- NormalizeMaxLength(input.maxLength);
      var budget := VariableBudget(input, maxLength);
      if budget < 1 then Err("GitHub branch maxLength is too small for the prefix.")
      else
        NormalizeBranchName(prefix + "/" + (Middle(input, budget) + "-" + DigestSegment(input.planHash, sha256)))
  }

  // ---------------------------------------------------------------- generated names are valid

  predicate SegmentChar(c: char) {
    RefSafe(c) && c != '/'
  }

  /** What sanitising makes of any text. */
  ghost predicate CleanSegment(s: string) {
    && (forall c :: c in s ==> SegmentChar(c))
    && !HasPair(s, '.', '.')
    && (s != "" ==> !Edge(s[0]) && !Edge(s[|s| - 1]))
  }

  lemma SliceHasNoPair(s: string, lo: int, hi: int, a: char, b: char)
    requires 0 <= lo <= hi <= |s| && !HasPair(s, a, b)
    ensures !HasPair(s[lo..hi], a, b)
  {
    forall i | 0 <= i < |s[lo..hi]| - 1 ensures !(s[lo..hi][i] == a && s[lo..hi][i + 1] == b) {
      assert !(s[lo + i] == a && s[lo + i + 1] == b);
    }
  }

  lemma TrimEdgesClean(s: string)
    requires (forall c :: c in s ==> SegmentChar(c)) && !HasPair(s, '.', '.')
    ensures CleanSegment(TrimBranchEdges(s))
    ensures s != "" && !Edge(s[0]) ==> TrimBranchEdges(s) != "" && TrimBranchEdges(s)[0] == s[0]
  {
    var lead := TrimLeadingEdges(s);
    var both := TrimTrailingEdges(lead);
    SliceHasNoPair(s, |s| - |lead|, |s|, '.', '.');
    SliceHasNoPair(lead, 0, |both|, '.', '.');
  }

  lemma SanitizeCleans(value: string)
    ensures CleanSegment(SanitizeBranchSegment(value))
  {
    var lowered := Lower(Trim(value));
    var dashed := CollapseRuns(lowered, IS_UNSAFE, '-');
    var undotted := CollapseRuns(dashed, IS_DOT, '.');
    var flat := CollapseRuns(undotted, IS_SLASH, '-');
    var collapsed := CollapseRuns(flat, IS_DASH, '-');
    CollapseChars(lowered, IS_UNSAFE, '-');
    CollapseChars(dashed, IS_DOT, '.');
    CollapseChars(undotted, IS_SLASH, '-');
    CollapseChars(flat, IS_DASH, '-');
    DotsCollapsed(dashed);
    CollapseOther(undotted, IS_SLASH, '-', '.');
    CollapseOther(flat, IS_DASH, '-', '.');
    TrimEdgesClean(collapsed);
  }

  lemma {:induction false} DotsCollapsed(s: string)
    ensures !HasPair(CollapseRuns(s, IS_DOT, '.'), '.', '.')
  {
    if s != "" {
      DotsCollapsed(s[1..]);
      if |s| > 1 {
        CollapseFirst(s[1..], IS_DOT, '.');
      }
    }
  }

  lemma {:induction false} SanitizeAllCleans(values: seq<string>)
    ensures forall part :: part in SanitizeAll(values) ==> CleanSegment(part)
  {
    hide SanitizeBranchSegment, CleanSegment;
    if values != [] {
      SanitizeCleans(values[0]);
      SanitizeAllCleans(values[1..]);
    }
  }

  lemma JoinedSegmentsClean(run: string, slug: string)
    requires CleanSegment(run) && CleanSegment(slug) && run != ""
    ensures var joined := JoinBranchSegments([run, slug]);
            && joined != "" && !Edge(joined[0])
            && (forall c :: c in joined ==> SegmentChar(c)) && !HasPair(joined, '.', '.')
  {
    var joined := if slug == "" then run else run + "-" + slug;
    SelectSnoc([], run, IS_NONEMPTY);
    SelectSnoc([run], slug, IS_NONEMPTY);
    assert [] + [run] == [run] && [run] + [slug] == [run, slug] && [run, slug][1..] == [slug];
    assert NonEmpty([run, slug]) == if slug == "" then [run] else [run, slug];
    assert Join(NonEmpty([run, slug]), "-") == joined;
    CollapseChars(joined, IS_DASH, '-');
    CollapseOther(joined, IS_DASH, '-', '.');
    CollapseFirst(joined, IS_DASH, '-');
  }

  /** The middle of a generated name is clean, not empty and within its budget. */
  lemma MiddleClean(input: BranchInput, budget: int)
    requires budget >= 1 && SanitizeBranchSegment(input.runId) != ""
    ensures CleanSegment(Middle(input, budget)) && 1 <= |Middle(input, budget)| <= budget
  {
    hide SanitizeBranchSegment, JoinBranchSegments;
    SanitizeCleans(input.runId);
    if input.slug.Some? {
      SanitizeCleans(input.slug.value);
    }
    var joined := JoinBranchSegments([SanitizeBranchSegment(input.runId), SlugSegment(input)]);
    JoinedSegmentsClean(SanitizeBranchSegment(input.runId), SlugSegment(input));
    var cut := if |joined| <= budget then joined else joined[..budget];
    SliceHasNoPair(joined, 0, |cut|, '.', '.');
    assert cut == joined[..|cut|];
    TrimEdgesClean(cut);
  }

  /** A nonempty component that git accepts anywhere in a ref. */
  ghost predicate RefPart(part: string) {
    && part != "" && (forall c :: c in part ==> SegmentChar(c))
    && !HasPair(part, '.', '.') && part[0] != '.' && part[|part| - 1] != '.'
  }

  ghost predicate SoundName(name: string, first: char) {
    && name != "" && name[0] == first && !RefEdge(name[0]) && !RefEdge(name[|name| - 1])
    && (forall c :: c in name ==> RefSafe(c))
    && !HasPair(name, '.', '.') && !HasPair(name, '/', '/')
  }

  predicate RefEdge(c: char) {
    c == '/' || c == '.'
  }

  lemma {:induction false} JoinedParts(parts: seq<string>)
    requires parts != [] && forall part :: part in parts ==> RefPart(part)
    ensures parts[0] != "" && SoundName(Join(parts, "/"), parts[0][0])
  {
    assert parts[0] in parts;
    assert RefPart(parts[0]);
    if |parts| > 1 {
      JoinedParts(parts[1..]);
      var rest := Join(parts[1..], "/");
      var name := parts[0] + "/" + rest;
      assert parts[1] in parts && RefPart(parts[1]) && parts[1][0] in parts[1] && rest[0] == parts[1][0];
      assert rest[0] != '.' && rest[0] != '/';
      assert parts[0][|parts[0]| - 1] in parts[0];
      assert name[0] == parts[0][0] && parts[0][0] in parts[0];
      assert name[|name| - 1] == rest[|rest| - 1];
      forall i | 0 <= i < |name| - 1 && name[i] == name[i + 1] ensures name[i] != '.' && name[i] != '/' {
        if i < |parts[0]| - 1 {
          assert name[i] == parts[0][i] && name[i + 1] == parts[0][i + 1] && parts[0][i] in parts[0];
        } else if i > |parts[0]| {
          assert name[i] == rest[i - |parts[0]| - 1] && name[i + 1] == rest[i - |parts[0]|];
        }
      }
    } else {
      forall i | 0 <= i < |parts[0]| - 1 && parts[0][i] == parts[0][i + 1] ensures parts[0][i] != '/' {
        assert parts[0][i] in parts[0];
      }
      assert parts[0][0] in parts[0] && parts[0][|parts[0]| - 1] in parts[0];
    }
  }

  lemma SoundNameTrimmed(name: string, first: char)
    requires SoundName(name, first)
    ensures Trim(name) == name
  {
    hide Trim;
    assert name[0] in name && name[|name| - 1] in name;
    assert Trimmed(name);
    var t := Trim(name);
  }

  lemma SoundNameAccepted(name: string, first: char)
    requires SoundName(name, first) && !AnyPart(Split(name, '/'), STARTS_DOTTED)
    ensures !BadRef(name)
  {
    hide Split, AnyPart, RefSafe, ForbiddenInRef, HasPair, EndsWith;
    forall c | c in name ensures !ForbiddenInRef(c) && c != '@' {
      SafeNotForbidden(c);
    }
    NoPairWithout(name, '@', '{');
    EndsInOne(name, "/");
    EndsInOne(name, ".");
  }

  lemma SafeNotForbidden(c: char)
    requires RefSafe(c)
    ensures !ForbiddenInRef(c) && c != '@'
  {
  }

  lemma NoPairWithout(s: string, a: char, b: char)
    requires a !in s
    ensures !HasPair(s, a, b)
  {
    forall i | 0 <= i < |s| - 1 ensures s[i] != a {
      assert s[i] in s;
    }
  }

  lemma EndsInOne(s: string, suffix: string)
    requires s != "" && |suffix| == 1
    ensures EndsWith(s, suffix) <==> s[|s| - 1] == suffix[0]
  {
    assert s[|s| - 1..] == [s[|s| - 1]];
  }

  /** A name made of good components is valid exactly when none of them ends in `.lock`. */
  lemma PartsMakeRef(parts: seq<string>)
    requires parts != [] && forall part :: part in parts ==> RefPart(part)
    requires |Join(parts, "/")| <= 255
    ensures NormalizeBranchName(Join(parts, "/")).Ok? <==> !AnyPart(parts, ENDS_LOCKED)
    ensures NormalizeBranchName(Join(parts, "/")).Ok? ==>
              NormalizeBranchName(Join(parts, "/")) == Ok(Join(parts, "/"))
  {
    var name := Join(parts, "/");
    assert Split(name, '/') == parts && !AnyPart(parts, STARTS_DOTTED) by {
      forall part | part in parts ensures '/' !in part && !StartsWithDot(part) {
        assert RefPart(part);
      }
      SplitJoin(parts, '/');
    }
    JoinedParts(parts);
    SoundNameAccepted(name, parts[0][0]);
    SoundNameTrimmed(name, parts[0][0]);
    hide *;
    NormalizeSound(name);
  }

  lemma NormalizeSound(name: string)
    requires name != "" && Trim(name) == name && |name| <= 255 && !BadRef(name)
    ensures NormalizeBranchName(name).Ok? <==> !AnyPart(Split(name, '/'), ENDS_LOCKED)
    ensures NormalizeBranchName(name).Ok? ==> NormalizeBranchName(name) == Ok(name)
  {
    hide BadRef, Trim, AnyPart, Split;
  }

  /** With usable parts and enough room, generation succeeds exactly when no component of the
      sanitised prefix ends in `.lock`; the name is then valid as it stands, within the limit, and
      ends in the whole digest. */
  lemma GeneratedNameExactly(input: BranchInput, maxLength: int, sha256: Digest)
    requires IsHexDigest(sha256)
    requires PrefixParts(Prefix(input)) != [] && SanitizeBranchSegment(input.runId) != "" && Trim(input.planHash) != ""
    requires NormalizeMaxLength(input.maxLength) == Ok(maxLength) && VariableBudget(input, maxLength) >= 1
    ensures CreateBranchName(input, sha256).Ok? <==> !AnyPart(PrefixParts(Prefix(input)), ENDS_LOCKED)
    ensures CreateBranchName(input, sha256).Ok? ==>
              var name := CreateBranchName(input, sha256).value;
              && NormalizeBranchName(name) == Ok(name) && |name| <= maxLength
              && EndsWith(name, "-" + DigestSegment(input.planHash, sha256))
              && SanitizeBranchPrefix(Prefix(input)) + "/" <= name
  {
    hide SanitizeBranchSegment, NormalizeBranchName, PrefixParts, Middle, EndsWith, RefPart, CleanSegment;
    var parts := PrefixParts(Prefix(input));
    var budget := VariableBudget(input, maxLength);
    var digest := DigestSegment(input.planHash, sha256);
    var middle := Middle(input, budget);
    assert forall c :: c in digest ==> c in sha256(Trim(input.planHash));
    MiddleClean(input, budget);
    PrefixPartsGood(Prefix(input));
    JoinNonempty(parts);
    ExtendedRef(parts, middle, digest);
  }

  /** Runs that share a generated branch name share the digest of their plan hash. */
  lemma SameNameSameDigest(a: BranchInput, b: BranchInput, sha256: Digest)
    requires IsHexDigest(sha256)
    requires CreateBranchName(a, sha256).Ok? && CreateBranchName(a, sha256) == CreateBranchName(b, sha256)
    ensures DigestSegment(a.planHash, sha256) == DigestSegment(b.planHash, sha256)
  {
    hide SanitizeBranchSegment, NormalizeBranchName, PrefixParts, Middle, EndsWith, DigestSegment;
    GeneratedNameExactly(a, NormalizeMaxLength(a.maxLength).value, sha256);
    GeneratedNameExactly(b, NormalizeMaxLength(b.maxLength).value, sha256);
    SameTail(CreateBranchName(a, sha256).value, DigestSegment(a.planHash, sha256), DigestSegment(b.planHash, sha256));
  }

  lemma SameTail(name: string, d: string, e: string)
    requires |d| == |e| && EndsWith(name, "-" + d) && EndsWith(name, "-" + e)
    ensures d == e
  {
    assert ("-" + d)[1..] == d && ("-" + e)[1..] == e;
  }

  lemma JoinNonempty(parts: seq<string>)
    requires parts != [] && forall part :: part in parts ==> RefPart(part)
    ensures Join(parts, "/") != ""
  {
    JoinedParts(parts);
  }

  lemma ExtendedRef(parts: seq<string>, middle: string, digest: string)
    requires parts != [] && forall part :: part in parts ==> RefPart(part)
    requires CleanSegment(middle) && middle != "" && |digest| == BRANCH_HASH_LENGTH
    requires forall c :: c in digest ==> '0' <= c <= '9' || 'a' <= c <= 'f'
    requires |Join(parts, "/") + "/" + (middle + "-" + digest)| <= 255
    ensures var name := Join(parts, "/") + "/" + (middle + "-" + digest);
            && (NormalizeBranchName(name).Ok? <==> !AnyPart(parts, ENDS_LOCKED))
            && (NormalizeBranchName(name).Ok? ==> NormalizeBranchName(name) == Ok(name))
            && EndsWith(name, "-" + digest)
  {
    var last := middle + "-" + digest;
    hide RefPart, CleanSegment, EndsWith, AnyPart, NormalizeBranchName, Join;
    LastPartGood(middle, digest);
    JoinMore(parts, last);
    EndsWithTail(Join(parts, "/") + "/" + middle, "-" + digest);
    assert Join(parts, "/") + "/" + last == Join(parts, "/") + "/" + middle + ("-" + digest);
    OneMorePart(parts, last);
    PartsMakeRef(parts + [last]);
  }

  lemma EndsWithTail(front: string, tail: string)
    ensures EndsWith(front + tail, tail)
  {
    assert (front + tail)[|front|..] == tail;
  }

  lemma OneMorePart(parts: seq<string>, last: string)
    requires RefPart(last) && !EndsWith(last, ".lock") && forall part :: part in parts ==> RefPart(part)
    ensures forall part :: part in parts + [last] ==> RefPart(part)
    ensures AnyPart(parts + [last], ENDS_LOCKED) <==> AnyPart(parts, ENDS_LOCKED)
  {
    hide RefPart, EndsWith;
    assert forall part :: part in parts + [last] <==> part in parts || part == last;
    if AnyPart(parts, ENDS_LOCKED) {
      var part :| part in parts && ENDS_LOCKED(part);
      assert part in parts + [last];
    }
  }

  lemma PrefixPartsGood(prefix: string)
    ensures forall part :: part in PrefixParts(prefix) ==> RefPart(part)
  {
    var values := SanitizeAll(Split(prefix, '/'));
    SanitizeAllCleans(Split(prefix, '/'));
    SelectMembers(values, IS_NONEMPTY);
    forall part | part in PrefixParts(prefix) ensures RefPart(part) {
      assert CleanSegment(part);
    }
  }

  lemma LastPartGood(middle: string, digest: string)
    requires CleanSegment(middle) && middle != "" && |digest| == BRANCH_HASH_LENGTH
    requires forall c :: c in digest ==> '0' <= c <= '9' || 'a' <= c <= 'f'
    ensures RefPart(middle + "-" + digest) && !EndsWith(middle + "-" + digest, ".lock")
  {
    var last := middle + "-" + digest;
    forall i | 0 <= i < |last| - 1 ensures !(last[i] == '.' && last[i + 1] == '.') {
      if i > |middle| {
        assert last[i] == digest[i - |middle| - 1] && digest[i - |middle| - 1] in digest;
      }
    }
    assert last[|last| - 1] == digest[|digest| - 1] && digest[|digest| - 1] in digest;
    assert last[|last| - 5..][4] == last[|last| - 1];
  }

  lemma {:induction false} JoinMore(parts: seq<string>, last: string)
    requires parts != []
    ensures Join(parts + [last], "/") == Join(parts, "/") + "/" + last
  {
    if |parts| == 1 {
      assert (parts + [last])[1..] == [last];
    } else {
      assert (parts + [last])[1..] == parts[1..] + [last];
      JoinMore(parts[1..], last);
      assert parts[0] + "/" + (Join(parts[1..], "/") + "/" + last)
           == parts[0] + "/" + Join(parts[1..], "/") + "/" + last;
    }
  }

  // ---------------------------------------------------------------- a prefix that is refused

  lemma SegmentCharPlain(c: char)
    requires SegmentChar(c)
    ensures !IsSpace(c) && LowerStable(c) && RefSafe(c) && c != '/'
  {
  }

  lemma CollapsesNothing(s: string)
    requires CleanSegment(s) && !HasPair(s, '-', '-')
    ensures CollapseRuns(s, IS_UNSAFE, '-') == s && CollapseRuns(s, IS_DOT, '.') == s
    ensures CollapseRuns(s, IS_SLASH, '-') == s && CollapseRuns(s, IS_DASH, '-') == s
  {
    hide HasPair, CollapseRuns;
    CollapseNothing(s, IS_UNSAFE, '-');
    CollapseNothing(s, IS_DOT, '.');
    CollapseNothing(s, IS_SLASH, '-');
    CollapseNothing(s, IS_DASH, '-');
  }

  lemma CleanTrimmed(s: string)
    requires CleanSegment(s) && s != ""
    ensures Trim(s) == s && Lower(s) == s && TrimBranchEdges(s) == s
  {
    hide IsSpace, RefSafe, LowerStable, HasPair, Trim, Lower;
    forall c | c in s ensures !IsSpace(c) && LowerStable(c) {
      SegmentCharPlain(c);
    }
    assert s[0] in s && s[|s| - 1] in s;
    LowerOfStable(s);
    assert Trimmed(s);
    var t := Trim(s);
  }

  /** Sanitising leaves a clean segment without double hyphens alone. */
  lemma SanitizeFixpoint(s: string)
    requires CleanSegment(s) && s != "" && !HasPair(s, '-', '-')
    ensures SanitizeBranchSegment(s) == s
  {
    hide CleanSegment, HasPair, Trim, Lower, CollapseRuns, TrimBranchEdges;
    CleanTrimmed(s);
    CollapsesNothing(s);
  }

  /** A prefix that the sanitiser lets through and the validation refuses. */
  lemma LockPrefixRefused()
    ensures PrefixParts("x.lock") == ["x.lock"] && AnyPart(PrefixParts("x.lock"), ENDS_LOCKED)
  {
    var s := "x.lock";
    hide SanitizeBranchSegment;
    assert CleanSegment(s) && !HasPair(s, '-', '-');
    SanitizeFixpoint(s);
    SplitPart(s, "", '/');
    assert SanitizeAll([s]) == [s] by {
      assert [s][1..] == [] && [s] + [] == [s];
    }
    SelectSnoc([], s, IS_NONEMPTY);
    assert [] + [s] == [s] && NonEmpty([s]) == [s];
    EndsWithTail("x", ".lock");
    assert "x" + ".lock" == s && s in [s];
  }

  /** Generation under that prefix fails. */
  lemma LockedNameRefused(sha256: Digest)
    requires IsHexDigest(sha256)
    ensures CreateBranchName(BranchInput("r", "h", None, Some("x.lock"), None), sha256).Err?
  {
    var input := BranchInput("r", "h", None, Some("x.lock"), None);
    hide SanitizeBranchSegment, PrefixParts, AnyPart, CreateBranchName, HasPair, Trim;
    LockPrefixRefused();
    PlainLetter("r");
    PlainLetter("h");
    assert Join(["x.lock"], "/") == "x.lock";
    assert VariableBudget(input, DEFAULT_BRANCH_MAX_LENGTH) >= 1;
    GeneratedNameExactly(input, DEFAULT_BRANCH_MAX_LENGTH, sha256);
  }

  lemma PlainLetter(s: string)
    requires |s| == 1 && 'a' <= s[0] <= 'z'
    ensures SanitizeBranchSegment(s) == s && Trim(s) == s
  {
    hide SanitizeBranchSegment, Trim;
    assert CleanSegment(s) && !HasPair(s, '-', '-');
    SanitizeFixpoint(s);
    CleanTrimmed(s);
  }
}
