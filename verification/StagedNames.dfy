/**
 Printing and recognising the names of staged images and artifacts (docker.go).
 */
module StagedNames {
  import opened Decimals

  const STAGED_PREFIX := "cmgr-validate-"
  const IDENTIFIER_LENGTH := 32
  const ARCHIVE_SUFFIX := ".tar.gz"
  const BACKUP_PREFIX := ".cmgr-old-"

  // -------------------------------------------------------------- printing

  function DockerId(b: nat, host: string): string {
    Print(b) + "-" + host
  }

  function BuildImageName(challenge: string, b: nat, host: string, qualifier: string): string {
    challenge + ":" + (if qualifier == "" then DockerId(b, host) else qualifier + "-" + DockerId(b, host))
  }

  function ArtifactsFilename(b: nat): string {
    Print(b) + ARCHIVE_SUFFIX
  }

  function ArtifactsFilenameForQualifier(b: nat, qualifier: string): string {
    if qualifier == "" then ArtifactsFilename(b) else "." + qualifier + "-" + ArtifactsFilename(b)
  }

  function BackupFilename(b: nat, qualifier: string): string {
    BACKUP_PREFIX + qualifier + "-" + ArtifactsFilename(b)
  }

  // ------------------------------------------------------------- searching

  /** Where `c` first occurs, or -1. */
  function IndexOf(s: string, c: char): (i: int)
    ensures -1 <= i < |s|
    ensures i >= 0 ==> s[i] == c && forall j | 0 <= j < i :: s[j] != c
    ensures i < 0 ==> c !in s
  {
    if s == [] then -1
    else if s[0] == c then 0
    else var i := IndexOf(s[1..], c); if i < 0 then -1 else i + 1
  }

  /** Where `c` last occurs, or -1. */
  function LastIndexOf(s: string, c: char): (i: int)
    ensures -1 <= i < |s|
    ensures i >= 0 ==> s[i] == c && forall j | i < j < |s| :: s[j] != c
    ensures i < 0 ==> c !in s
  {
    if s == [] then -1
    else if s[|s| - 1] == c then |s| - 1
    else LastIndexOf(s[..|s| - 1], c)
  }

  function CutPrefix(s: string, prefix: string): Option<string> {
    if prefix <= s then Some(s[|prefix|..]) else None
  }

  function CutSuffix(s: string, suffix: string): Option<string> {
    if |suffix| <= |s| && s[|s| - |suffix|..] == suffix then Some(s[..|s| - |suffix|]) else None
  }

  predicate IsHex(c: char) {
    '0' <= c <= '9' || 'a' <= c <= 'f'
  }

  /** The shape of a qualifier: the prefix and 32 hexadecimal digits. */
  predicate IsUpdateQualifier(s: string) {
    && |s| == |STAGED_PREFIX| + IDENTIFIER_LENGTH
    && STAGED_PREFIX <= s
    && (forall i | |STAGED_PREFIX| <= i < |s| :: IsHex(s[i]))
  }

  method CheckUpdateQualifier(s: string) returns (ok: bool)
    ensures ok == IsUpdateQualifier(s)
  {
    if |s| != |STAGED_PREFIX| + IDENTIFIER_LENGTH || !(STAGED_PREFIX <= s) {
      return false;
    }
    for i := |STAGED_PREFIX| to |s|
      invariant forall j | |STAGED_PREFIX| <= j < i :: IsHex(s[j])
    {
      if !IsHex(s[i]) {
        return false;
      }
    }
    ok := true;
  }

  // ---------------------------------------------------------- staged images

  /** What follows a qualifier: a positive build id, a dash and something more. */
  function BuildAndHost(s: string): Option<int> {
    var end := IndexOf(s, '-');
    if end <= 0 || end == |s| - 1 then None
    else match ParseInt(s[..end])
      case None => None
      case Some(value) => if value <= 0 then None else Some(value)
  }

  /** The position of the first dash that ends a qualifier, or -1. */
  ghost predicate EndsQualifier(s: string, i: int) {
    0 <= i < |s| && s[i] == '-' && IsUpdateQualifier(s[..i])
  }

  /** The build id a staged image name carries, if it is one. */
  ghost function ImageBuildId(remainder: string): Option<int> {
    if EndsQualifier(remainder, |STAGED_PREFIX| + IDENTIFIER_LENGTH)
    then BuildAndHost(remainder[|STAGED_PREFIX| + IDENTIFIER_LENGTH + 1..])
    else None
  }

  /** Tries every dash in turn as the end of the qualifier. */
  method StagedImageBuildID(tag: string, challenge: string) returns (id: Option<int>)
    ensures id == match CutPrefix(tag, challenge + ":") case None => None case Some(remainder) => ImageBuildId(remainder)
  {
    var cut := CutPrefix(tag, challenge + ":");
    if cut.None? {
      return None;
    }
    var remainder := cut.value;
    var separator := IndexOf(remainder, '-');
    while separator >= 0
      invariant -1 <= separator < |remainder|
      invariant separator >= 0 ==> remainder[separator] == '-'
      invariant forall j | 0 <= j < (if separator < 0 then |remainder| else separator) :: !EndsQualifier(remainder, j)
      decreases |remainder| - separator, if separator < 0 then 0 else 1
    {
      var isQualifier := CheckUpdateQualifier(remainder[..separator]);
      if isQualifier {
        return BuildAndHost(remainder[separator + 1..]);
      }
      var next := IndexOf(remainder[separator + 1..], '-');
      if next < 0 {
        assert forall j | separator < j < |remainder| :: remainder[j] == remainder[separator + 1..][j - separator - 1];
        return None;
      }
      assert forall j | separator < j < separator + 1 + next :: remainder[j] == remainder[separator + 1..][j - separator - 1];
      separator := separator + next + 1;
    }
    id := None;
  }

  // ------------------------------------------------------- staged artifacts

  const QUALIFIER_LENGTH := |STAGED_PREFIX| + IDENTIFIER_LENGTH

  function Positive(value: Option<int>): Option<int> {
    if value.Some? && value.value > 0 then value else None
  }

  /** What comes before the first dash. */
  function FirstPiece(s: string): string {
    var i := IndexOf(s, '-');
    if i < 0 then s else s[..i]
  }

  /** The build id in a file name without its prefix and suffix. */
  ghost function ArtifactIdIn(remainder: string): Option<int> {
    if EndsQualifier(remainder, QUALIFIER_LENGTH) then Positive(ParseInt(FirstPiece(remainder[QUALIFIER_LENGTH + 1..]))) else None
  }

  ghost function ArtifactIdAfter(name: string, prefix: string): Option<int> {
    match CutPrefix(name, prefix)
    case None => None
    case Some(cut) =>
      match CutSuffix(cut, ARCHIVE_SUFFIX)
      case None => None
      case Some(remainder) => ArtifactIdIn(remainder)
  }

  lemma PieceAt(original: string, end: nat, i: nat)
    requires i < end <= |original| && original[i] == '-' && (end == |original| || original[end] == '-')
    requires forall j | i < j < end :: original[j] != '-'
    ensures FirstPiece(original[i + 1..]) == original[..end][i + 1..]
  {
    var s := original[i + 1..];
    assert forall j | 0 <= j < end - i - 1 :: s[j] == original[i + 1 + j];
    var k := IndexOf(s, '-');
    if end < |original| {
      assert s[end - i - 1] == '-';
      assert k == end - i - 1;
    } else {
      assert '-' !in s;
    }
  }

  /** Tries the dashes from the last one, dropping what follows each. */
  method ScanArtifact(original: string) returns (id: Option<int>)
    ensures id == ArtifactIdIn(original)
  {
    var remainder := original;
    var separator := LastIndexOf(remainder, '-');
    while separator >= 0
      invariant remainder <= original && separator == LastIndexOf(remainder, '-')
      invariant |remainder| == |original| || original[|remainder|] == '-'
      invariant forall j | |remainder| <= j < |original| :: !EndsQualifier(original, j)
      decreases |remainder|
    {
      assert remainder[..separator] == original[..separator];
      var isQualifier := CheckUpdateQualifier(remainder[..separator]);
      if isQualifier {
        assert EndsQualifier(original, separator);
        PieceAt(original, |remainder|, separator);
        assert original[..|remainder|] == remainder;
        return Positive(ParseInt(remainder[separator + 1..]));
      }
      assert forall j | separator < j < |remainder| :: remainder[j] == original[j] != '-';
      remainder := remainder[..separator];
      separator := LastIndexOf(remainder, '-');
    }
    assert forall j | 0 <= j < |remainder| :: remainder[j] == original[j] != '-';
    id := None;
  }

  method StagedArtifactBuildID(name: string) returns (id: Option<int>)
    ensures id == if ArtifactIdAfter(name, ".").Some? then ArtifactIdAfter(name, ".") else ArtifactIdAfter(name, BACKUP_PREFIX)
  {
    var prefixes := [".", BACKUP_PREFIX];
    for k := 0 to |prefixes|
      invariant forall j | 0 <= j < k :: ArtifactIdAfter(name, prefixes[j]) == None
    {
      var cut := CutPrefix(name, prefixes[k]);
      if cut.None? {
        continue;
      }
      var remainder := CutSuffix(cut.value, ARCHIVE_SUFFIX);
      if remainder.None? {
        continue;
      }
      id := ScanArtifact(remainder.value);
      if id.Some? {
        assert k == 0 || k == 1;
        assert k == 1 ==> ArtifactIdAfter(name, prefixes[0]) == None;
        return;
      }
    }
    assert ArtifactIdAfter(name, prefixes[0]) == None && ArtifactIdAfter(name, prefixes[1]) == None;
    id := None;
  }

  // -------------------------------------------------------------- round trips

  lemma NotQualified(s: string, k: nat)
    requires k < |s| && k < |STAGED_PREFIX| && s[k] != STAGED_PREFIX[k]
    ensures !EndsQualifier(s, QUALIFIER_LENGTH)
  {
    if QUALIFIER_LENGTH < |s| { assert s[..QUALIFIER_LENGTH][k] == s[k]; }
  }

  lemma FirstDash(digits: string, rest: string)
    requires AllDigits(digits)
    ensures IndexOf(digits + "-" + rest, '-') == |digits|
  {
    var s := digits + "-" + rest;
    assert s[|digits|] == '-';
    assert forall j | 0 <= j < |digits| :: s[j] == digits[j] != '-';
  }

  lemma QualifierEnds(qualifier: string, rest: string)
    requires IsUpdateQualifier(qualifier)
    ensures EndsQualifier(qualifier + "-" + rest, QUALIFIER_LENGTH)
    ensures (qualifier + "-" + rest)[QUALIFIER_LENGTH + 1..] == rest
  {
    assert (qualifier + "-" + rest)[..QUALIFIER_LENGTH] == qualifier;
  }

  /** A staged image name is recognised for its build exactly when the host is not empty. */
  lemma StagedImageRoundTrip(challenge: string, b: nat, host: string, qualifier: string)
    requires 0 < b <= MAX_INT64 && IsUpdateQualifier(qualifier)
    ensures
      var cut := CutPrefix(BuildImageName(challenge, b, host, qualifier), challenge + ":");
      cut.Some? && ImageBuildId(cut.value) == if host == "" then None else Some(b)
  {
    var name := BuildImageName(challenge, b, host, qualifier);
    var remainder := qualifier + "-" + DockerId(b, host);
    assert name == challenge + ":" + remainder;
    assert name[|challenge + ":"|..] == remainder;
    QualifierEnds(qualifier, DockerId(b, host));
    FirstDash(Print(b), host);
    assert DockerId(b, host)[..|Print(b)|] == Print(b);
    PrintedParses(b);
  }

  /** A canonical name starts with digits where a qualifier would start with a letter. */
  lemma CanonicalImageIsNotStaged(challenge: string, b: nat, host: string)
    ensures
      var cut := CutPrefix(BuildImageName(challenge, b, host, ""), challenge + ":");
      cut.Some? && ImageBuildId(cut.value) == None
  {
    var name := BuildImageName(challenge, b, host, "");
    var remainder := DockerId(b, host);
    assert name == challenge + ":" + remainder;
    assert name[|challenge + ":"|..] == remainder;
    assert remainder[0] == Print(b)[0];
    NotQualified(remainder, 0);
  }

  lemma ArchiveName(prefix: string, stem: string)
    ensures CutPrefix(prefix + (stem + ARCHIVE_SUFFIX), prefix) == Some(stem + ARCHIVE_SUFFIX)
    ensures CutSuffix(stem + ARCHIVE_SUFFIX, ARCHIVE_SUFFIX) == Some(stem)
  {
    assert (prefix + (stem + ARCHIVE_SUFFIX))[|prefix|..] == stem + ARCHIVE_SUFFIX;
    assert (stem + ARCHIVE_SUFFIX)[|stem|..] == ARCHIVE_SUFFIX && (stem + ARCHIVE_SUFFIX)[..|stem|] == stem;
  }

  lemma StemId(qualifier: string, b: nat)
    requires 0 < b <= MAX_INT64 && IsUpdateQualifier(qualifier)
    ensures ArtifactIdIn(qualifier + "-" + Print(b)) == Some(b)
  {
    QualifierEnds(qualifier, Print(b));
    assert '-' !in Print(b);
    PrintedParses(b);
  }

  /** The staged artifact name gives its build back. */
  lemma StagedArtifactRoundTrip(b: nat, qualifier: string)
    requires 0 < b <= MAX_INT64 && IsUpdateQualifier(qualifier)
    ensures ArtifactIdAfter(ArtifactsFilenameForQualifier(b, qualifier), ".") == Some(b)
  {
    var stem := qualifier + "-" + Print(b);
    assert ArtifactsFilenameForQualifier(b, qualifier) == "." + (stem + ARCHIVE_SUFFIX);
    ArchiveName(".", stem);
    StemId(qualifier, b);
  }

  /** So does the backup name: read with the shorter prefix it is no staged name, because its
      qualifier does not start where one would. */
  lemma BackupArtifactRoundTrip(b: nat, qualifier: string)
    requires 0 < b <= MAX_INT64 && IsUpdateQualifier(qualifier)
    ensures ArtifactIdAfter(BackupFilename(b, qualifier), ".") == None
    ensures ArtifactIdAfter(BackupFilename(b, qualifier), BACKUP_PREFIX) == Some(b)
  {
    hide ArtifactIdIn, CutPrefix, CutSuffix, IsUpdateQualifier;
    var stem := qualifier + "-" + Print(b);
    var name := BackupFilename(b, qualifier);
    assert name == BACKUP_PREFIX + (stem + ARCHIVE_SUFFIX);
    ArchiveName(BACKUP_PREFIX, stem);
    StemId(qualifier, b);
    var longer := "cmgr-old-" + stem;
    assert name == "." + (longer + ARCHIVE_SUFFIX);
    ArchiveName(".", longer);
    assert longer[5] == 'o';
    NotQualified(longer, 5);
    NoIdIn(longer);
  }

  lemma NoIdIn(remainder: string)
    requires !EndsQualifier(remainder, QUALIFIER_LENGTH)
    ensures ArtifactIdIn(remainder) == None
  {
  }

  /** A canonical artifact name does not start with a dot. */
  lemma CanonicalArtifactIsNotStaged(b: nat)
    ensures ArtifactIdAfter(ArtifactsFilename(b), ".") == None && ArtifactIdAfter(ArtifactsFilename(b), BACKUP_PREFIX) == None
  {
    assert ArtifactsFilename(b)[0] == Print(b)[0];
  }

  // --------------------------------------------------------- distinct names

  predicate Word(s: string) {
    ':' !in s
  }

  /** Names of different builds, hosts, qualifiers or challenges are different, so a name can
      stand for what it was printed from. */
  lemma ImageNamesDiffer(c: string, b: nat, h: string, q: string, c': string, b': nat, h': string, q': string)
    requires Word(c) && Word(c')
    requires (q == "" || IsUpdateQualifier(q)) && (q' == "" || IsUpdateQualifier(q'))
    requires BuildImageName(c, b, h, q) == BuildImageName(c', b', h', q')
    ensures c == c' && b == b' && h == h' && q == q'
  {
    var r := if q == "" then DockerId(b, h) else q + "-" + DockerId(b, h);
    var r' := if q' == "" then DockerId(b', h') else q' + "-" + DockerId(b', h');
    SplitAt(c, r, c', r', ':');
    QualifiersAgree(b, h, q, b', h', q');
    DockerIdsAgree(b, h, b', h');
  }

  lemma SplitAt(a: string, r: string, a': string, r': string, c: char)
    requires c !in a && c !in a' && a + [c] + r == a' + [c] + r'
    ensures a == a' && r == r'
  {
    var s := a + [c] + r;
    assert s[|a|] == c && s[|a'|] == c;
    assert forall i | 0 <= i < |a| :: s[i] == a[i];
    assert forall i | 0 <= i < |a'| :: s[i] == a'[i];
    assert |a| == |a'|;
    assert s[..|a|] == a && s[..|a'|] == a';
    assert s[|a| + 1..] == r && s[|a'| + 1..] == r';
  }

  lemma QualifiersAgree(b: nat, h: string, q: string, b': nat, h': string, q': string)
    requires (q == "" || IsUpdateQualifier(q)) && (q' == "" || IsUpdateQualifier(q'))
    requires (if q == "" then DockerId(b, h) else q + "-" + DockerId(b, h)) == (if q' == "" then DockerId(b', h') else q' + "-" + DockerId(b', h'))
    ensures q == q' && DockerId(b, h) == DockerId(b', h')
  {
    var s := if q == "" then DockerId(b, h) else q + "-" + DockerId(b, h);
    assert q == "" ==> s[0] == Print(b)[0];
    assert q' == "" ==> s[0] == Print(b')[0];
    assert q != "" ==> s[0] == q[0] == STAGED_PREFIX[0];
    assert q' != "" ==> s[0] == q'[0] == STAGED_PREFIX[0];
    if q != "" && q' != "" {
      assert s[..QUALIFIER_LENGTH] == q && s[..QUALIFIER_LENGTH] == q';
      assert s[QUALIFIER_LENGTH + 1..] == DockerId(b, h) && s[QUALIFIER_LENGTH + 1..] == DockerId(b', h');
    }
  }

  lemma DockerIdsAgree(b: nat, h: string, b': nat, h': string)
    requires DockerId(b, h) == DockerId(b', h')
    ensures b == b' && h == h'
  {
    assert '-' !in Print(b) && '-' !in Print(b');
    SplitAt(Print(b), h, Print(b'), h', '-');
    PrintIsInjective(b, b');
  }
}
