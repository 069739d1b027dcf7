/**
 The byte stream behind a challenge's source digest and its metadata digest (filesystem.go).
 Two different directory walks, or two different metadata files, give different streams.
 */
module HashFrames {
  import opened Decimals

  type byte = x: int | 0 <= x < 256
  type Bytes = seq<byte>

  // --------------------------------------------------------------- numbers

  function Limit(width: nat): nat {
    if width == 0 then 1 else 256 * Limit(width - 1)
  }

  function BigEndian(n: nat, width: nat): (s: Bytes)
    ensures |s| == width
  {
    if width == 0 then [] else BigEndian(n / 256, width - 1) + [n % 256]
  }

  function FromBigEndian(s: Bytes): nat {
    if s == [] then 0 else FromBigEndian(s[..|s| - 1]) * 256 + s[|s| - 1]
  }

  lemma {:induction false} BigEndianRoundTrip(n: nat, width: nat)
    requires n < Limit(width)
    ensures FromBigEndian(BigEndian(n, width)) == n
  {
    if width > 0 {
      var s := BigEndian(n, width);
      assert s[..|s| - 1] == BigEndian(n / 256, width - 1);
      BigEndianRoundTrip(n / 256, width - 1);
    }
  }

  lemma Limits()
    ensures Limit(4) == 0x1_0000_0000 && Limit(8) == 0x1_0000_0000_0000_0000
  {
    assert Limit(1) == 256 && Limit(2) == 65536 && Limit(3) == 0x100_0000;
    assert Limit(5) == 0x100_0000_0000 && Limit(6) == 0x1_0000_0000_0000 && Limit(7) == 0x100_0000_0000_0000;
  }

  function Ascii(s: string): Bytes
    requires forall i | 0 <= i < |s| :: s[i] as int < 256
  {
    seq(|s|, i requires 0 <= i < |s| => s[i] as int)
  }

  function FromAscii(s: Bytes): string {
    seq(|s|, i requires 0 <= i < |s| => s[i] as char)
  }

  // ---------------------------------------------------------------- frames

  /** Lengths of byte slices and files are below this. */
  const MAX_LENGTH := 0x7fff_ffff_ffff_ffff

  predicate Fits(data: Bytes) {
    |data| <= MAX_LENGTH
  }

  function Frame(name: string, data: Bytes): Bytes
    requires IsLabel(name)
  {
    BigEndian(|name|, 4) + Ascii(name) + BigEndian(|data|, 8) + data
  }

  predicate IsLabel(name: string) {
    |name| < 256 && forall i | 0 <= i < |name| :: name[i] as int < 256
  }

  /** The hash as the sequence of bytes written to it. */
  class Stream {
    var written: Bytes

    constructor ()
      ensures written == []
    {
      written := [];
    }

    method Write(data: Bytes)
      modifies this
      ensures written == old(written) + data
    {
      written := written + data;
    }

    method WriteHashFrame(name: string, data: Bytes)
      requires IsLabel(name)
      modifies this
      ensures written == old(written) + Frame(name, data)
    {
      Write(BigEndian(|name|, 4));
      Write(Ascii(name));
      Write(BigEndian(|data|, 8));
      Write(data);
      assert written == old(written) + Frame(name, data);
    }
  }

  /** Reads a frame with this label off the front. */
  function ReadFrame(name: string, s: Bytes): Option<(Bytes, Bytes)>
    requires IsLabel(name)
  {
    var head := BigEndian(|name|, 4) + Ascii(name);
    if |s| < |head| + 8 || s[..|head|] != head then None
    else
      var length := FromBigEndian(s[|head|..|head| + 8]);
      if |s| < |head| + 8 + length then None
      else Some((s[|head| + 8..|head| + 8 + length], s[|head| + 8 + length..]))
  }

  lemma FrameRoundTrip(name: string, data: Bytes, rest: Bytes)
    requires IsLabel(name) && Fits(data)
    ensures ReadFrame(name, Frame(name, data) + rest) == Some((data, rest))
  {
    Limits();
    BigEndianRoundTrip(|data|, 8);
    var head := BigEndian(|name|, 4) + Ascii(name);
    var s := Frame(name, data) + rest;
    assert s == head + BigEndian(|data|, 8) + data + rest;
    assert s[..|head|] == head;
    assert s[|head|..|head| + 8] == BigEndian(|data|, 8);
    assert s[|head| + 8..|head| + 8 + |data|] == data;
    assert s[|head| + 8 + |data|..] == rest;
  }

  // ----------------------------------------------------------------- modes

  /** The flags of a file mode in the order their letters are printed, and its permissions. */
  datatype Mode = Mode(flags: seq<bool>, permissions: seq<bool>)

  const FLAG_LETTERS := "dalTLDpSugct?"
  const PERMISSION_LETTERS := "rwxrwxrwx"

  predicate ValidMode(m: Mode) {
    |m.flags| == |FLAG_LETTERS| && |m.permissions| == |PERMISSION_LETTERS|
  }

  /** The letters of the set flags. */
  function Letters(flags: seq<bool>, letters: string): (s: string)
    requires |flags| == |letters|
    ensures |s| <= |letters|
    ensures forall c :: c in s ==> c in letters
  {
    if flags == [] then [] else (if flags[0] then [letters[0]] else []) + Letters(flags[1..], letters[1..])
  }

  function PermissionText(permissions: seq<bool>): (s: string)
    requires |permissions| == |PERMISSION_LETTERS|
    ensures |s| == |permissions|
  {
    seq(|permissions|, i requires 0 <= i < |permissions| => if permissions[i] then PERMISSION_LETTERS[i] else '-')
  }

  /** How a mode is printed: flag letters, or a dash when there are none, then permissions. */
  function ModeText(m: Mode): (s: string)
    requires ValidMode(m)
    ensures |s| > 9
  {
    var letters := Letters(m.flags, FLAG_LETTERS);
    (if letters == [] then "-" else letters) + PermissionText(m.permissions)
  }

  const SYMLINK := 4
  const TYPE_FLAGS := [0, 4, 5, 6, 7, 10, 12]

  predicate IsSymlink(m: Mode)
    requires ValidMode(m)
  {
    m.flags[SYMLINK]
  }

  /** No flag that makes it anything but a file. */
  predicate IsRegular(m: Mode)
    requires ValidMode(m)
  {
    forall i | i in TYPE_FLAGS :: !(0 <= i < |m.flags| && m.flags[i])
  }

  predicate DistinctLetters(letters: string) {
    forall i, j | 0 <= i < j < |letters| :: letters[i] != letters[j]
  }

  /** A letter is printed exactly when its flag is set. */
  lemma {:induction false} LetterIffFlag(flags: seq<bool>, letters: string, i: nat)
    requires |flags| == |letters| && i < |flags| && DistinctLetters(letters)
    ensures letters[i] in Letters(flags, letters) <==> flags[i]
  {
    var rest := Letters(flags[1..], letters[1..]);
    if i == 0 {
      assert letters[0] !in letters[1..];
    } else {
      assert letters[1..][i - 1] == letters[i];
      LetterIffFlag(flags[1..], letters[1..], i - 1);
    }
  }

  lemma FlagLettersDistinct()
    ensures DistinctLetters(FLAG_LETTERS) && '-' !in FLAG_LETTERS
  {
  }

  /** The printed mode determines the mode, so a reader knows what follows it. */
  lemma ModeTextDetermines(a: Mode, b: Mode)
    requires ValidMode(a) && ValidMode(b) && ModeText(a) == ModeText(b)
    ensures a == b
  {
    FlagLettersDistinct();
    var s := ModeText(a);
    var x, y := Letters(a.flags, FLAG_LETTERS), Letters(b.flags, FLAG_LETTERS);
    var x', y' := (if x == [] then "-" else x), (if y == [] then "-" else y);
    assert s[..|s| - 9] == x' && s[..|s| - 9] == y';
    assert s[|s| - 9..] == PermissionText(a.permissions) && s[|s| - 9..] == PermissionText(b.permissions);
    assert '-' !in x && '-' !in y;
    assert ('-' in x' <==> x == []) && ('-' in y' <==> y == []);
    forall i | 0 <= i < |a.flags| ensures a.flags[i] == b.flags[i] {
      LetterIffFlag(a.flags, FLAG_LETTERS, i);
      LetterIffFlag(b.flags, FLAG_LETTERS, i);
    }
    forall i | 0 <= i < |a.permissions| ensures a.permissions[i] == b.permissions[i] {
      assert PermissionText(a.permissions)[i] == PermissionText(b.permissions)[i];
    }
  }

  /** What the printed mode says comes after the size: a link target, contents, or nothing. */
  datatype Kind = Link | Contents | Nothing

  function KindOf(m: Mode): Kind
    requires ValidMode(m)
  {
    if IsSymlink(m) then Link else if IsRegular(m) then Contents else Nothing
  }

  function KindInText(s: string): Kind
    requires |s| > 9
  {
    var letters := s[..|s| - 9];
    if 'L' in letters then Link
    else if forall i | i in TYPE_FLAGS :: !(0 <= i < |FLAG_LETTERS| && FLAG_LETTERS[i] in letters) then Contents
    else Nothing
  }

  lemma ModeTextTellsKind(m: Mode)
    requires ValidMode(m)
    ensures KindInText(ModeText(m)) == KindOf(m)
  {
    FlagLettersDistinct();
    var s := ModeText(m);
    var letters := Letters(m.flags, FLAG_LETTERS);
    assert s[..|s| - 9] == if letters == [] then "-" else letters;
    forall i | 0 <= i < |FLAG_LETTERS|
      ensures FLAG_LETTERS[i] in s[..|s| - 9] <==> m.flags[i]
    {
      LetterIffFlag(m.flags, FLAG_LETTERS, i);
      assert FLAG_LETTERS[i] in FLAG_LETTERS;
    }
    assert FLAG_LETTERS[SYMLINK] == 'L';
  }

  // --------------------------------------------------------------- entries

  /** One step of the walk; `body` is the link target or the contents. */
  datatype Entry = Entry(path: Bytes, mode: Mode, size: nat, body: Bytes)

  predicate ValidEntry(e: Entry) {
    && ValidMode(e.mode) && Fits(e.path) && Fits(e.body) && e.size <= MAX_LENGTH
    && (KindOf(e.mode) == Contents ==> |e.body| == e.size)
    && (KindOf(e.mode) == Nothing ==> e.body == [])
  }

  lemma TextIsAscii(m: Mode, n: nat)
    requires ValidMode(m)
    ensures forall i | 0 <= i < |ModeText(m)| :: ModeText(m)[i] as int < 256
    ensures forall i | 0 <= i < |Print(n)| :: Print(n)[i] as int < 256
    ensures |ModeText(m)| < 256
  {
    var letters := Letters(m.flags, FLAG_LETTERS);
    assert forall c | c in FLAG_LETTERS :: c as int < 256;
    assert forall i | 0 <= i < |letters| :: letters[i] in FLAG_LETTERS;
  }

  function ModeBytes(m: Mode): Bytes
    requires ValidMode(m)
  {
    TextIsAscii(m, 0);
    Ascii(ModeText(m))
  }

  function SizeBytes(n: nat): Bytes {
    Ascii(Print(n))
  }

  function EntryBytes(e: Entry): Bytes
    requires ValidEntry(e)
  {
    Frame("path", e.path) + (Frame("mode", ModeBytes(e.mode)) + (Frame("size", SizeBytes(e.size)) + BodyBytes(e)))
  }

  function BodyBytes(e: Entry): Bytes
    requires ValidEntry(e)
  {
    match KindOf(e.mode)
    case Link => Frame("symlink", e.body)
    case Contents => BigEndian(e.size, 8) + e.body
    case Nothing => []
  }

  function StreamOf(entries: seq<Entry>): Bytes
    requires forall e | e in entries :: ValidEntry(e)
  {
    if entries == [] then [] else EntryBytes(entries[0]) + StreamOf(entries[1..])
  }

  lemma Labels()
    ensures IsLabel("path") && IsLabel("mode") && IsLabel("size") && IsLabel("symlink") && IsLabel("metadata")
  {
  }

  lemma EntryWritten(e: Entry, s: Bytes)
    requires ValidEntry(e)
    ensures ValidMode(e.mode) && IsLabel("path") && IsLabel("mode") && IsLabel("size") && IsLabel("symlink")
    ensures s + Frame("path", e.path) + Frame("mode", ModeBytes(e.mode)) + Frame("size", SizeBytes(e.size)) + BodyBytes(e) == s + EntryBytes(e)
  {
    hide Frame, BodyBytes, ModeBytes, SizeBytes;
    Labels();
  }

  lemma BodyWritten(e: Entry, s: Bytes)
    requires ValidEntry(e)
    ensures ValidMode(e.mode) && IsLabel("symlink")
    ensures IsSymlink(e.mode) ==> BodyBytes(e) == Frame("symlink", e.body)
    ensures !IsSymlink(e.mode) && IsRegular(e.mode) ==> s + BigEndian(e.size, 8) + e.body == s + BodyBytes(e)
    ensures !IsSymlink(e.mode) && !IsRegular(e.mode) ==> s == s + BodyBytes(e)
  {
    hide Frame;
    Labels();
  }

  /** Hashes one step of the walk. */
  method ChallengeChecksum(h: Stream, e: Entry)
    requires ValidEntry(e)
    modifies h
    ensures h.written == old(h.written) + EntryBytes(e)
  {
    hide *;
    ghost var s := h.written;
    EntryWritten(e, s);
    BodyWritten(e, s + Frame("path", e.path) + Frame("mode", ModeBytes(e.mode)) + Frame("size", SizeBytes(e.size)));
    h.WriteHashFrame("path", e.path);
    h.WriteHashFrame("mode", ModeBytes(e.mode));
    h.WriteHashFrame("size", SizeBytes(e.size));
    if IsSymlink(e.mode) {
      h.WriteHashFrame("symlink", e.body);
    } else if IsRegular(e.mode) {
      h.Write(BigEndian(e.size, 8));
      h.Write(e.body);
    }
  }

  method HashWalk(h: Stream, entries: seq<Entry>)
    requires forall e | e in entries :: ValidEntry(e)
    modifies h
    ensures h.written == old(h.written) + StreamOf(entries)
  {
    hide *;
    ghost var s := h.written;
    NothingWritten(s, entries);
    for k := 0 to |entries|
      invariant h.written == s + StreamOf(entries[..k])
    {
      StreamOn(entries, k);
      Joined(s, StreamOf(entries[..k]), EntryBytes(entries[k]));
      ChallengeChecksum(h, entries[k]);
    }
    assert entries[..|entries|] == entries;
  }

  lemma NothingWritten(s: Bytes, entries: seq<Entry>)
    ensures s == s + StreamOf(entries[..0])
  {
  }

  lemma Joined(a: Bytes, b: Bytes, c: Bytes)
    ensures a + b + c == a + (b + c)
  {
  }

  lemma {:induction false} StreamOn(entries: seq<Entry>, k: nat)
    requires k < |entries| && forall e | e in entries :: ValidEntry(e)
    ensures StreamOf(entries[..k + 1]) == StreamOf(entries[..k]) + EntryBytes(entries[k])
    decreases k
  {
    hide EntryBytes, ValidEntry;
    if k > 0 {
      assert entries[..k + 1][1..] == entries[1..][..k] && entries[..k][1..] == entries[1..][..k - 1];
      StreamOn(entries[1..], k - 1);
    } else {
      assert entries[..1][1..] == [];
    }
  }

  // --------------------------------------------------------------- reading

  datatype Parsed = Parsed(path: Bytes, mode: Bytes, size: Bytes, body: Bytes)

  function Parse(e: Entry): Parsed
    requires ValidEntry(e)
  {
    Parsed(e.path, ModeBytes(e.mode), SizeBytes(e.size), e.body)
  }

  /** Reads one entry off the front.  The mode decides what to read after the size. */
  function ReadEntry(s: Bytes): Option<(Parsed, Bytes)> {
    match ReadFrame("path", s)
    case None => None
    case Some((path, s1)) =>
      match ReadFrame("mode", s1)
      case None => None
      case Some((mode, s2)) =>
        match ReadFrame("size", s2)
        case None => None
        case Some((size, s3)) =>
          if |mode| <= 9 then None
          else match ReadBody(KindInText(FromAscii(mode)), s3)
            case None => None
            case Some((body, rest)) => Some((Parsed(path, mode, size, body), rest))
  }

  function ReadBody(kind: Kind, s: Bytes): Option<(Bytes, Bytes)> {
    match kind
    case Link => ReadFrame("symlink", s)
    case Nothing => Some(([], s))
    case Contents =>
      if |s| < 8 then None
      else
        var length := FromBigEndian(s[..8]);
        if |s| < 8 + length then None else Some((s[8..8 + length], s[8 + length..]))
  }

  lemma BodyRoundTrip(e: Entry, rest: Bytes)
    requires ValidEntry(e)
    ensures ReadBody(KindOf(e.mode), BodyBytes(e) + rest) == Some((e.body, rest))
  {
    match KindOf(e.mode) {
      case Link => FrameRoundTrip("symlink", e.body, rest);
      case Nothing => assert [] + rest == rest;
      case Contents =>
        Limits();
        BigEndianRoundTrip(e.size, 8);
        var s := BodyBytes(e) + rest;
        assert s[..8] == BigEndian(e.size, 8) && s[8..8 + e.size] == e.body && s[8 + e.size..] == rest;
    }
  }

  lemma AsciiRoundTrip(s: string)
    requires forall i | 0 <= i < |s| :: s[i] as int < 256
    ensures FromAscii(Ascii(s)) == s
  {
  }

  /** An entry's bytes are read back as that entry, whatever follows them: no entry's bytes
      are a proper prefix of another's. */
  lemma EntryRoundTrip(e: Entry, rest: Bytes)
    requires ValidEntry(e)
    ensures ReadEntry(EntryBytes(e) + rest) == Some((Parse(e), rest))
  {
    hide Frame, ReadFrame, ReadBody, BodyBytes, KindInText, KindOf, ModeText;
    TextIsAscii(e.mode, e.size);
    var size := Frame("size", SizeBytes(e.size)) + BodyBytes(e);
    var mode := Frame("mode", ModeBytes(e.mode)) + size;
    assert EntryBytes(e) + rest == Frame("path", e.path) + (mode + rest);
    FrameRoundTrip("path", e.path, mode + rest);
    assert mode + rest == Frame("mode", ModeBytes(e.mode)) + (size + rest);
    FrameRoundTrip("mode", ModeBytes(e.mode), size + rest);
    assert size + rest == Frame("size", SizeBytes(e.size)) + (BodyBytes(e) + rest);
    SizeIsShort(e.size);
    FrameRoundTrip("size", SizeBytes(e.size), BodyBytes(e) + rest);
    AsciiRoundTrip(ModeText(e.mode));
    ModeTextTellsKind(e.mode);
    BodyRoundTrip(e, rest);
  }

  lemma {:induction false} PrintLength(n: nat, width: nat)
    requires width > 0 && n < Tens(width)
    ensures |Print(n)| <= width
  {
    if n >= 10 {
      PrintLength(n / 10, width - 1);
    }
  }

  function Tens(width: nat): nat {
    if width == 0 then 1 else 10 * Tens(width - 1)
  }

  lemma SizeIsShort(n: nat)
    requires n <= MAX_LENGTH
    ensures Fits(SizeBytes(n))
  {
    assert Tens(5) == 100000;
    assert Tens(10) == 10000000000;
    assert Tens(15) == 1000000000000000;
    assert Tens(19) == 10000000000000000000;
    PrintLength(n, 19);
  }

  lemma ParseDetermines(a: Entry, b: Entry)
    requires ValidEntry(a) && ValidEntry(b) && Parse(a) == Parse(b)
    ensures a == b
  {
    TextIsAscii(a.mode, a.size);
    TextIsAscii(b.mode, b.size);
    AsciiRoundTrip(ModeText(a.mode));
    AsciiRoundTrip(ModeText(b.mode));
    AsciiRoundTrip(Print(a.size));
    AsciiRoundTrip(Print(b.size));
    ModeTextDetermines(a.mode, b.mode);
    PrintIsInjective(a.size, b.size);
  }

  /** Different walks are hashed as different streams. */
  lemma {:induction false} StreamDetermines(a: seq<Entry>, b: seq<Entry>)
    requires forall e | e in a :: ValidEntry(e)
    requires forall e | e in b :: ValidEntry(e)
    requires StreamOf(a) == StreamOf(b)
    ensures a == b
    decreases |a|
  {
    hide EntryBytes, ReadEntry, ValidEntry, Parse;
    if a == [] || b == [] {
      if a != [] { EntryNotEmpty(a[0]); }
      if b != [] { EntryNotEmpty(b[0]); }
    } else {
      EntryRoundTrip(a[0], StreamOf(a[1..]));
      EntryRoundTrip(b[0], StreamOf(b[1..]));
      ParseDetermines(a[0], b[0]);
      StreamDetermines(a[1..], b[1..]);
      assert a == [a[0]] + a[1..] && b == [b[0]] + b[1..];
    }
  }

  lemma EntryNotEmpty(e: Entry)
    requires ValidEntry(e)
    ensures EntryBytes(e) != []
  {
  }

  // -------------------------------------------------------------- metadata

  function MetadataBytes(data: Bytes, path: Bytes): Bytes {
    Frame("metadata", data) + Frame("path", path)
  }

  method MetadataHashes(h: Stream, data: Bytes, path: Bytes)
    modifies h
    ensures h.written == old(h.written) + MetadataBytes(data, path)
  {
    hide Frame, BigEndian, Ascii;
    Joined(h.written, Frame("metadata", data), Frame("path", path));
    h.WriteHashFrame("metadata", data);
    h.WriteHashFrame("path", path);
  }

  /** Moving bytes between the metadata and its path is noticed. */
  lemma MetadataDetermines(data: Bytes, path: Bytes, data': Bytes, path': Bytes)
    requires Fits(data) && Fits(path) && Fits(data') && Fits(path')
    requires MetadataBytes(data, path) == MetadataBytes(data', path')
    ensures data == data' && path == path'
  {
    hide Frame, ReadFrame;
    FrameRoundTrip("metadata", data, Frame("path", path));
    FrameRoundTrip("metadata", data', Frame("path", path'));
    assert Frame("path", path) + [] == Frame("path", path) && Frame("path", path') + [] == Frame("path", path');
    FrameRoundTrip("path", path, []);
    FrameRoundTrip("path", path', []);
  }
}
