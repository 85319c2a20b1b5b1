/**
 * How `start_playback(is_for_recording=True)` names the recording file and
 * builds the VLC stream-output option that writes it: the station name is
 * reduced to its alphanumeric characters, the wall-clock time is written as
 * `YYYYMMDD_HHMMSS`, and the file `rec_<name>_<time>.mp3` is placed in
 * `<home>/Music`. Each builder is paired with a parser that recovers what
 * was put in.
 */
module Recording {
  import opened Wrappers

  // ---------------------------------------------------------------------
  // Station name sanitizing: `"".join(x for x in name if x.isalnum())`.

  /** `str.isalnum`, restricted to ASCII letters and digits. */
  predicate IsAlnum(c: char)
  {
    ('a' <= c <= 'z') || ('A' <= c <= 'Z') || ('0' <= c <= '9')
  }

  /** Keeps the alphanumeric characters of `s`, in order. */
  function Sanitize(s: string): (r: string)
    ensures |r| <= |s|
    ensures forall i :: 0 <= i < |r| ==> IsAlnum(r[i])
  {
    if s == [] then []
    else (if IsAlnum(s[0]) then [s[0]] else []) + Sanitize(s[1..])
  }

  /** `a` can be obtained from `b` by deleting characters. */
  predicate IsSubsequence(a: string, b: string)
  {
    if a == [] then true
    else if b == [] then false
    else (a[0] == b[0] && IsSubsequence(a[1..], b[1..])) || IsSubsequence(a, b[1..])
  }

  /** The sanitized name keeps the original order of the characters it keeps. */
  lemma {:induction false} SanitizeIsSubsequence(s: string)
    ensures IsSubsequence(Sanitize(s), s)
  {
    if s != [] {
      SanitizeIsSubsequence(s[1..]);
      if IsAlnum(s[0]) {
        assert Sanitize(s) == [s[0]] + Sanitize(s[1..]);
        assert Sanitize(s)[1..] == Sanitize(s[1..]);
      } else {
        assert Sanitize(s) == Sanitize(s[1..]);
      }
    }
  }

  /** Every alphanumeric character occurs as often as in the name, every other character never. */
  lemma {:induction false} SanitizeCounts(s: string)
    ensures forall c :: multiset(Sanitize(s))[c] == if IsAlnum(c) then multiset(s)[c] else 0
  {
    if s != [] {
      SanitizeCounts(s[1..]);
      assert s == [s[0]] + s[1..];
      assert multiset(s) == multiset([s[0]]) + multiset(s[1..]);
      var head := if IsAlnum(s[0]) then [s[0]] else [];
      assert Sanitize(s) == head + Sanitize(s[1..]);
      assert multiset(Sanitize(s)) == multiset(head) + multiset(Sanitize(s[1..]));
    }
  }

  /** A name is left as it is exactly when it is already all alphanumeric. */
  lemma {:induction false} SanitizeFixpoint(s: string)
    ensures Sanitize(s) == s <==> forall i :: 0 <= i < |s| ==> IsAlnum(s[i])
  {
    if s != [] {
      SanitizeFixpoint(s[1..]);
      if IsAlnum(s[0]) {
        assert Sanitize(s) == [s[0]] + Sanitize(s[1..]);
        assert (forall i :: 0 <= i < |s| ==> IsAlnum(s[i])) <==> (forall i :: 0 <= i < |s[1..]| ==> IsAlnum(s[1..][i])) by {
          forall i | 0 < i < |s| ensures s[i] == s[1..][i - 1] { }
        }
        assert Sanitize(s) == s <==> Sanitize(s[1..]) == s[1..] by {
          if Sanitize(s) == s { assert Sanitize(s)[1..] == s[1..]; }
          if Sanitize(s[1..]) == s[1..] { assert s == [s[0]] + s[1..]; }
        }
      } else {
        assert |Sanitize(s)| <= |s[1..]| < |s|;
      }
    }
  }

  // ---------------------------------------------------------------------
  // Zero-padded decimal fields.

  predicate IsDigit(c: char)
  {
    '0' <= c <= '9'
  }

  predicate AllDigits(s: string)
  {
    forall i :: 0 <= i < |s| ==> IsDigit(s[i])
  }

  function Pow10(w: nat): (r: nat)
    ensures r >= 1
  {
    if w == 0 then 1 else 10 * Pow10(w - 1)
  }

  /** The last `w` decimal digits of `n`, with leading zeros (`%0wd` for `n < 10^w`). */
  function Pad(n: nat, w: nat): (r: string)
    ensures |r| == w
    ensures AllDigits(r)
  {
    if w == 0 then [] else Pad(n / 10, w - 1) + [('0' as int + n % 10) as char]
  }

  /** The number a string of decimal digits denotes. */
  function DecimalValue(s: string): nat
    requires AllDigits(s)
  {
    if s == [] then 0
    else DecimalValue(s[..|s| - 1]) * 10 + (s[|s| - 1] as int - '0' as int)
  }

  /** Reading back a padded field gives the number, when it fits in the width. */
  lemma {:induction false} PadRoundTrip(n: nat, w: nat)
    requires n < Pow10(w)
    ensures DecimalValue(Pad(n, w)) == n
  {
    if w == 0 {
    } else {
      var p := Pad(n, w);
      assert p[..w - 1] == Pad(n / 10, w - 1);
      assert n / 10 < Pow10(w - 1);
      PadRoundTrip(n / 10, w - 1);
      assert DecimalValue(p) == (n / 10) * 10 + n % 10;
    }
  }

  // ---------------------------------------------------------------------
  // The time stamp: `datetime.now().strftime("%Y%m%d_%H%M%S")`.

  /** A wall-clock reading, the fields of a Python `datetime`. */
  datatype DateTime = DateTime(year: nat, month: nat, day: nat, hour: nat, minute: nat, second: nat)

  /** The field ranges a `datetime` guarantees. */
  predicate ValidDateTime(t: DateTime)
  {
    1 <= t.year <= 9999 && 1 <= t.month <= 12 && 1 <= t.day <= 31 &&
    t.hour <= 23 && t.minute <= 59 && t.second <= 59
  }

  function Timestamp(t: DateTime): (r: string)
    ensures |r| == 15 && r[8] == '_'
    ensures AllDigits(r[..8]) && AllDigits(r[9..])
  {
    var r := Pad(t.year, 4) + Pad(t.month, 2) + Pad(t.day, 2) + "_" +
             Pad(t.hour, 2) + Pad(t.minute, 2) + Pad(t.second, 2);
    assert r[..8] == Pad(t.year, 4) + Pad(t.month, 2) + Pad(t.day, 2);
    assert r[9..] == Pad(t.hour, 2) + Pad(t.minute, 2) + Pad(t.second, 2);
    r
  }

  /** Reads a `YYYYMMDD_HHMMSS` stamp back into its fields. */
  function ParseTimestamp(s: string): Option<DateTime>
  {
    if |s| == 15 && s[8] == '_' && AllDigits(s[..8]) && AllDigits(s[9..]) then
      Some(DateTime(DecimalValue(s[0..4]), DecimalValue(s[4..6]), DecimalValue(s[6..8]),
                    DecimalValue(s[9..11]), DecimalValue(s[11..13]), DecimalValue(s[13..15])))
    else None
  }

  /** The stamp records the reading exactly: parsing it gives back every field. */
  lemma TimestampRoundTrip(t: DateTime)
    requires ValidDateTime(t)
    ensures ParseTimestamp(Timestamp(t)) == Some(t)
  {
    var s := Timestamp(t);
    var hms := Pad(t.hour, 2) + Pad(t.minute, 2) + Pad(t.second, 2);
    assert s == Pad(t.year, 4) + Pad(t.month, 2) + Pad(t.day, 2) + "_" + hms;
    assert s[9..] == hms;
    assert s[0..4] == Pad(t.year, 4);
    assert s[4..6] == Pad(t.month, 2);
    assert s[6..8] == Pad(t.day, 2);
    assert s[9..11] == Pad(t.hour, 2);
    assert s[11..13] == Pad(t.minute, 2);
    assert s[13..15] == Pad(t.second, 2);
    assert Pow10(4) == 10000 && Pow10(2) == 100;
    PadRoundTrip(t.year, 4);
    PadRoundTrip(t.month, 2);
    PadRoundTrip(t.day, 2);
    PadRoundTrip(t.hour, 2);
    PadRoundTrip(t.minute, 2);
    PadRoundTrip(t.second, 2);
  }

  // ---------------------------------------------------------------------
  // Paths: POSIX `os.path.join` of two components and `os.path.basename`.

  function JoinPath(a: string, b: string): string
  {
    if b != [] && b[0] == '/' then b
    else if a == [] || a[|a| - 1] == '/' then a + b
    else a + "/" + b
  }

  /** What follows the last `/` of a path. */
  function BaseName(p: string): string
  {
    if p == [] || p[|p| - 1] == '/' then [] else BaseName(p[..|p| - 1]) + [p[|p| - 1]]
  }

  lemma {:induction false} BaseNameAfterSlash(dir: string, name: string)
    requires dir == [] || dir[|dir| - 1] == '/'
    requires '/' !in name
    ensures BaseName(dir + name) == name
  {
    if name != [] {
      var p := dir + name;
      assert p[..|p| - 1] == dir + name[..|name| - 1];
      assert p[|p| - 1] == name[|name| - 1];
      assert name[|name| - 1] in name;
      BaseNameAfterSlash(dir, name[..|name| - 1]);
      assert name == name[..|name| - 1] + [name[|name| - 1]];
    }
  }

  /** Joining never loses the second part: a plain name is the base name of the joined path. */
  lemma JoinPathBaseName(a: string, b: string)
    requires '/' !in b
    ensures BaseName(JoinPath(a, b)) == b
  {
    var dir := if a == [] || a[|a| - 1] == '/' then a else a + "/";
    if b != [] {
      assert b[0] in b;
    }
    assert JoinPath(a, b) == dir + b;
    BaseNameAfterSlash(dir, b);
  }

  /** A relative second part is appended below the first; an absolute one replaces it. */
  lemma JoinPathParts(a: string, b: string)
    ensures b != [] && b[0] == '/' ==> JoinPath(a, b) == b
    ensures b == [] || b[0] != '/' ==>
      var r := JoinPath(a, b);
      && |a| + |b| <= |r| <= |a| + |b| + 1 && r[..|a|] == a && r[|r| - |b|..] == b
      && (|r| == |a| + |b| + 1 <==> a != [] && a[|a| - 1] != '/')
      && (|r| == |a| + |b| + 1 ==> r[|a|] == '/')
  {
  }

  /** `_get_music_folder`: `os.path.join(os.path.expanduser('~'), 'Music')`. */
  function MusicFolder(home: string): string
  {
    JoinPath(home, "Music")
  }

  /** The music folder is `Music` directly inside the home directory. */
  lemma MusicFolderUnderHome(home: string)
    ensures MusicFolder(home) == home + (if home == [] || home[|home| - 1] == '/' then "" else "/") + "Music"
    ensures BaseName(MusicFolder(home)) == "Music"
  {
    var dir := home + (if home == [] || home[|home| - 1] == '/' then "" else "/");
    assert MusicFolder(home) == dir + "Music";
    BaseNameAfterSlash(dir, "Music");
  }

  /** `rec_<sanitized name>_<stamp>.mp3`. */
  function RecordFileName(stationName: string, t: DateTime): string
  {
    "rec_" + Sanitize(stationName) + "_" + Timestamp(t) + ".mp3"
  }

  /** The `record_path` that a recording of `stationName` started at `t` writes to. */
  function RecordPath(home: string, stationName: string, t: DateTime): string
  {
    JoinPath(MusicFolder(home), RecordFileName(stationName, t))
  }

  /** The file name has no path separator: only letters, digits, `_`, `.` and the literal parts. */
  lemma RecordFileNameHasNoSlash(stationName: string, t: DateTime)
    ensures '/' !in RecordFileName(stationName, t)
  {
    var f := RecordFileName(stationName, t);
    var name := Sanitize(stationName);
    var ts := Timestamp(t);
    assert f == "rec_" + name + "_" + ts + ".mp3";
    forall i | 0 <= i < |f| ensures f[i] != '/' {
      if 4 <= i < 4 + |name| {
        assert f[i] == name[i - 4];
      } else if 5 + |name| <= i < 5 + |name| + 15 {
        var k := i - 5 - |name|;
        assert f[i] == ts[k];
        if k < 8 { assert ts[..8][k] == ts[k]; } else if k > 8 { assert ts[9..][k - 9] == ts[k]; }
      }
    }
  }

  /** The recording lands in `<home>/Music` under the name `rec_<name>_<stamp>.mp3`. */
  lemma RecordPathLayout(home: string, stationName: string, t: DateTime)
    ensures RecordPath(home, stationName, t) == MusicFolder(home) + "/" + RecordFileName(stationName, t)
    ensures BaseName(RecordPath(home, stationName, t)) == RecordFileName(stationName, t)
  {
    var dir := MusicFolder(home) + "/";
    assert dir[|dir| - 1] == '/';
    RecordFileNameHasNoSlash(stationName, t);
    BaseNameAfterSlash(dir, RecordFileName(stationName, t));
  }

  /** What a recording file name tells: the sanitized station name and the start time. */
  datatype RecordName = RecordName(station: string, start: DateTime)

  /** Splits `rec_<name>_<stamp>.mp3`; the stamp is the fifteen characters before `.mp3`. */
  function ParseRecordFileName(f: string): Option<RecordName>
  {
    var n := |f|;
    if n >= 24 && f[..4] == "rec_" && f[n - 4..] == ".mp3" && f[n - 20] == '_' then
      match ParseTimestamp(f[n - 19..n - 4])
      case Some(t) => Some(RecordName(f[4..n - 20], t))
      case None => None
    else None
  }

  /** The file name determines the sanitized station name and the start time it was built from. */
  lemma RecordFileNameRoundTrip(stationName: string, t: DateTime)
    requires ValidDateTime(t)
    ensures ParseRecordFileName(RecordFileName(stationName, t)) == Some(RecordName(Sanitize(stationName), t))
  {
    var f := RecordFileName(stationName, t);
    var name := Sanitize(stationName);
    var n := |f|;
    assert n == 24 + |name|;
    assert f[..4] == "rec_";
    assert f[n - 4..] == ".mp3";
    assert f[n - 20] == '_';
    assert f[4..n - 20] == name;
    assert f[n - 19..n - 4] == Timestamp(t);
    TimestampRoundTrip(t);
  }

  // ---------------------------------------------------------------------
  // The VLC stream-output option that transcodes to MP3 and writes the file.

  const SoutHead := "sout=#transcode{acodec=mp3,ab=128,channels=2,samplerate=44100}:standard{access=file,mux=raw,dst=\""
  const SoutTail := "\"}"

  /** `media.add_option(f'sout={sout}')` with the transcode chain writing to `path`. */
  function SoutOption(path: string): string
  {
    SoutHead + path + SoutTail
  }

  /** The file a transcode option writes to, or None for any other option. */
  function SinkDestination(option: string): Option<string>
  {
    var h, t := |SoutHead|, |SoutTail|;
    if |option| >= h + t && option[..h] == SoutHead && option[|option| - t..] == SoutTail
    then Some(option[h..|option| - t])
    else None
  }

  /** The option writes to exactly the path it was built from, with the fixed MP3 settings. */
  lemma SoutRoundTrip(path: string)
    ensures SinkDestination(SoutOption(path)) == Some(path)
    ensures SoutOption(path)[..|SoutHead|] == SoutHead
  {
    var o := SoutOption(path);
    assert o[..|SoutHead|] == SoutHead;
    assert o[|o| - |SoutTail|..] == SoutTail;
    assert o[|SoutHead|..|o| - |SoutTail|] == path;
  }

  // The worked example below is proved in small steps (each field, then the
  // literal concatenations) so that no single proof has the solver unfold a
  // whole string literal at once.

  lemma JazzFields()
    ensures Pad(2024, 4) == "2024" && Pad(5, 2) == "05" && Pad(1, 2) == "01"
    ensures Pad(12, 2) == "12" && Pad(0, 2) == "00"
  {
  }

  lemma LiteralStamp(y: string, mo: string, d: string, h: string, mi: string, se: string)
    requires y == "2024" && mo == "05" && d == "01" && h == "12" && mi == "00" && se == "00"
    ensures y + mo + d + "_" + h + mi + se == "20240501_120000"
  {
  }

  lemma JazzStamp()
    ensures Timestamp(DateTime(2024, 5, 1, 12, 0, 0)) == "20240501_120000"
  {
    JazzFields();
    LiteralStamp(Pad(2024, 4), Pad(5, 2), Pad(1, 2), Pad(12, 2), Pad(0, 2), Pad(0, 2));
  }

  lemma JazzName()
    ensures Sanitize("Jazz24!") == "Jazz24"
  {
  }

  lemma LiteralFileName(sn: string, ts: string)
    requires sn == "Jazz24" && ts == "20240501_120000"
    ensures "rec_" + sn + "_" + ts + ".mp3" == "rec_Jazz24_20240501_120000.mp3"
  {
  }

  lemma JazzFileName()
    ensures RecordFileName("Jazz24!", DateTime(2024, 5, 1, 12, 0, 0)) == "rec_Jazz24_20240501_120000.mp3"
  {
    JazzStamp();
    JazzName();
    LiteralFileName(Sanitize("Jazz24!"), Timestamp(DateTime(2024, 5, 1, 12, 0, 0)));
  }

  /** Recording "Jazz24!" at 2024-05-01 12:00:00: the file is `rec_Jazz24_20240501_120000.mp3` in the music folder. */
  lemma JazzExample(home: string)
    ensures RecordPath(home, "Jazz24!", DateTime(2024, 5, 1, 12, 0, 0))
         == MusicFolder(home) + "/" + "rec_Jazz24_20240501_120000.mp3"
    ensures BaseName(RecordPath(home, "Jazz24!", DateTime(2024, 5, 1, 12, 0, 0)))
         == "rec_Jazz24_20240501_120000.mp3"
  {
    JazzFileName();
    RecordPathLayout(home, "Jazz24!", DateTime(2024, 5, 1, 12, 0, 0));
  }
}
