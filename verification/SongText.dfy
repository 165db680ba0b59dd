/**
 The text form of a song (src/SongSave.cxx, src/TagSave.cxx): what `song_save` prints, and
 what `song_load` makes of any text.

 The printed duration is an opaque numeral; the loader's conversion of it is left out, and so
 is the repair of broken UTF-8. Characters up to blank count as blank.
 */
module SongText {
  import opened Common

  datatype Result = Loaded(song: Song) | UnknownLine

  datatype Item = Item(kind: nat, value: string)

  datatype Song = Song(uri: string, start: nat, end: nat, hasPlaylist: bool, mtime: int, items: seq<Item>)

  // ---------------------------------------------------------------------------------------
  // Numbers

  function Digit(d: nat): (c: char)
    requires d < 10
    ensures '0' <= c <= '9' && c as int - '0' as int == d
  {
    ('0' as int + d) as char
  }

  predicate IsDigit(c: char) { '0' <= c <= '9' }

  function Decimal(n: nat): (s: string)
    ensures s != [] && forall i :: 0 <= i < |s| ==> IsDigit(s[i])
  {
    if n < 10 then [Digit(n)] else Decimal(n / 10) + [Digit(n % 10)]
  }

  function Signed(n: int): string {
    if n < 0 then "-" + Decimal(-n) else Decimal(n)
  }

  /** Reads digits as long as there are any: the number so far, and the rest. */
  function Digits(acc: nat, s: string): (r: (nat, string))
    ensures |r.1| <= |s|
    decreases |s|
  {
    if s != [] && IsDigit(s[0]) then Digits(10 * acc + (s[0] as int - '0' as int), s[1..]) else (acc, s)
  }

  lemma {:induction false} DecimalIsRead(n: nat, rest: string)
    ensures Digits(0, Decimal(n) + rest) == Digits(n, rest)
  {
    if n < 10 {
      assert ([Digit(n)] + rest)[1..] == rest;
    } else {
      var d := [Digit(n % 10)];
      DecimalIsRead(n / 10, d + rest);
      assert Decimal(n) + rest == Decimal(n / 10) + (d + rest);
      assert (d + rest)[1..] == rest;
    }
  }

  predicate IsSpace(c: char) { c == ' ' || 9 <= c as int <= 13 }

  function SkipSpace(s: string): (r: string)
    ensures |r| <= |s|
  {
    if s != [] && IsSpace(s[0]) then SkipSpace(s[1..]) else s
  }

  /** The sign, the number and the rest, as strtol and strtoul see them. */
  function Number(s: string): (bool, nat, string) {
    var t := SkipSpace(s);
    var negative := t != [] && t[0] == '-';
    var u := if t != [] && (t[0] == '-' || t[0] == '+') then t[1..] else t;
    var (n, rest) := Digits(0, u);
    (negative, n, if u != [] && IsDigit(u[0]) then rest else s)
  }

  const TWO32: int := 0x1_0000_0000
  const TWO64: int := 0x1_0000_0000_0000_0000

  /** strtoul, assigned to a 32 bit unsigned; it saturates at 64 bits. */
  function ParseUnsigned(s: string): (r: (nat, string))
    ensures r.0 < TWO32
  {
    var (negative, n, rest) := Number(s);
    var v: int := if n >= TWO64 then TWO64 - 1 else if negative then 0 - n else n;
    (v % TWO32, rest)
  }


  /** The low 32 bits as a signed number. */
  function Truncate(x: int): (r: int)
    ensures Int32(r) && (Int32(x) ==> r == x)
  {
    var m := x % TWO32;
    if m >= 0x8000_0000 then m - TWO32 else m
  }

  /** atoi: strtol, which saturates at 64 bits, truncated. */
  function ParseInt(s: string): (r: int)
    ensures Int32(r)
  {
    var (negative, n, _) := Number(s);
    var v: int := if negative then 0 - n else n;
    var long := if v >= TWO64 / 2 then TWO64 / 2 - 1 else if v < -(TWO64 / 2) then -(TWO64 / 2) else v;
    Truncate(long)
  }

  predicate NoDigit(s: string) { s == [] || !IsDigit(s[0]) }

  lemma NumberReadsDecimal(n: nat, rest: string)
    requires NoDigit(rest)
    ensures Number(Decimal(n) + rest) == (false, n, rest)
    ensures Number("-" + Decimal(n) + rest) == (true, n, rest)
  {
    var t := Decimal(n) + rest;
    assert IsDigit(t[0]);
    DecimalIsRead(n, rest);
    var u := "-" + Decimal(n) + rest;
    assert u[0] == '-' && u[1..] == t;
    assert SkipSpace(u) == u && SkipSpace(t) == t;
  }

  lemma IntRoundTrip(n: int)
    requires Int32(n)
    ensures ParseInt(Signed(n)) == n
  {
    var k: nat := if n < 0 then -n else n;
    NumberReadsDecimal(k, []);
    hide Number, Decimal;
    assert Decimal(k) + [] == Decimal(k) && "-" + Decimal(k) + [] == "-" + Decimal(k);
  }

  // ---------------------------------------------------------------------------------------
  // Lines

  function Find(s: string, c: char): (i: nat)
    ensures i <= |s| && c !in s[..i] && (i < |s| ==> s[i] == c)
  {
    if s == [] || s[0] == c then 0
    else
      var i := 1 + Find(s[1..], c);
      assert s[..i] == [s[0]] + s[1..][..i - 1];
      i
  }

  lemma FindFirst(a: string, c: char, b: string)
    requires c !in a
    ensures Find(a + [c] + b, c) == |a|
  {
    var s := a + [c] + b;
    var i := Find(s, c);
    assert s[|a|] == c;
    assert forall k :: 0 <= k < |a| ==> s[k] == a[k];
    assert s[|a|] == c && !(|a| < i);
  }

  function ChopReturn(line: string): string {
    if line != [] && line[|line| - 1] == '\r' then line[..|line| - 1] else line
  }

  /** The next line and the rest; the last line may lack its newline. */
  function ReadLine(text: string): (r: Option<(string, string)>)
    ensures text == [] ==> r == None
    ensures r.Some? ==> |r.value.1| < |text| && '\n' !in r.value.0
  {
    var i := Find(text, '\n');
    if text == [] then None
    else if i == |text| then assert text[..i] == text; Some((text, []))
    else Some((ChopReturn(text[..i]), text[i + 1..]))
  }

  /** A line that comes back as it was printed. */
  predicate PlainLine(line: string) {
    '\n' !in line && (line == [] || line[|line| - 1] != '\r')
  }

  lemma LineIsRead(line: string, rest: string)
    requires '\n' !in line
    ensures ReadLine(line + "\n" + rest) == Some((ChopReturn(line), rest))
  {
    FindFirst(line, '\n', rest);
    var text := line + "\n" + rest;
    assert text[..|line|] == line && text[|line| + 1..] == rest;
  }

  function StripLeft(s: string): (r: string)
    ensures r == [] || r[0] > ' '
    ensures s != [] && s[0] > ' ' ==> r == s
    ensures '\n' !in s ==> '\n' !in r
  {
    if s != [] && s[0] <= ' ' then StripLeft(s[1..]) else s
  }

  // ---------------------------------------------------------------------------------------
  // Tags

  /** The names of the tags, in the order of their numbers. */
  const TAGS: seq<string> := [
    "Artist", "ArtistSort", "Album", "AlbumSort", "AlbumArtist", "AlbumArtistSort", "Title", "Track", "Name",
    "Genre", "Date", "Composer", "Performer", "Comment", "Disc", "MUSICBRAINZ_ARTISTID", "MUSICBRAINZ_ALBUMID",
    "MUSICBRAINZ_ALBUMARTISTID", "MUSICBRAINZ_TRACKID", "MUSICBRAINZ_RELEASETRACKID"
  ]

  /** The number of the first tag with that name from `i` on, or the number of tags. */
  function TagNamed(name: string, i: nat): (k: nat)
    requires i <= |TAGS|
    ensures i <= k <= |TAGS| && (k < |TAGS| ==> TAGS[k] == name) && forall j :: i <= j < k ==> TAGS[j] != name
    decreases |TAGS| - i
  {
    if i == |TAGS| || TAGS[i] == name then i else TagNamed(name, i + 1)
  }

  /** A number that tells the names apart. */
  function Mark(s: string): int {
    if |s| < 4 then -1 else |s| * 1000 + 3 * s[1] as int + (if |s| > 12 then s[12] as int else s[2] as int)
  }

  const MARKS: seq<int> := [
    6458, 10458, 5422, 9422, 11422, 15435, 5431, 5439, 4400, 5413, 4407, 8442,
    9417, 7442, 4430, 20320, 19320, 25320, 19339, 26337
  ]

  lemma MarkIs(i: nat)
    requires i < |TAGS|
    ensures Mark(TAGS[i]) == MARKS[i]
  {
  }

  lemma MarksAreDistinct(i: nat, j: nat)
    requires i < j < |MARKS|
    ensures MARKS[i] != MARKS[j]
  {
  }

  lemma TagIsFound(k: nat)
    requires k < |TAGS|
    ensures TagNamed(TAGS[k], 0) == k
  {
    var f := TagNamed(TAGS[k], 0);
    if f < k {
      MarkIs(f);
      MarkIs(k);
      MarksAreDistinct(f, k);
    }
  }

  const TIME := "Time"
  const PLAYLIST := "Playlist"
  const RANGE := "Range"
  const MTIME := "mtime"
  const SONG_BEGIN := "song_begin: "
  const SONG_END := "song_end"

  predicate IsKey(key: string) { key == TIME || key == PLAYLIST || key == RANGE || key == MTIME }

  lemma KeyIsNoTag(key: string)
    requires IsKey(key)
    ensures TagNamed(key, 0) == |TAGS|
  {
    var f := TagNamed(key, 0);
    if f < |TAGS| {
      MarkIs(f);
      MarksOfKeys(key, f);
    }
  }

  lemma MarksOfKeys(key: string, f: nat)
    requires IsKey(key) && f < |MARKS|
    ensures Mark(key) != MARKS[f]
  {
    assert Mark(key) == 4424 || Mark(key) == 8421 || Mark(key) == 5401 || Mark(key) == 5453;
  }

  // ---------------------------------------------------------------------------------------
  // Loading

  /** Control characters become blanks. */
  function Cleared(s: string): (r: string)
    ensures |r| == |s| && forall i :: 0 <= i < |s| ==> r[i] == if s[i] < ' ' then ' ' else s[i]
  {
    seq(|s|, i requires 0 <= i < |s| => if s[i] < ' ' then ' ' else s[i])
  }

  /** Empty values and disabled tags are dropped. */
  function WithItem(song: Song, enabled: set<nat>, kind: nat, value: string): Song {
    if value == [] || kind !in enabled then song
    else song.(items := song.items + [Item(kind, Cleared(value))])
  }

  function WithRange(song: Song, value: string): Song {
    var (start, rest) := ParseUnsigned(value);
    var end := if rest != [] && rest[0] == '-' then ParseUnsigned(rest[1..]).0 else 0;
    song.(start := start, end := end)
  }

  function WithValue(song: Song, enabled: set<nat>, key: string, value: string): Result {
    var kind := TagNamed(key, 0);
    if kind < |TAGS| then Loaded(WithItem(song, enabled, kind, value))
    else if key == TIME then Loaded(song)
    else if key == PLAYLIST then Loaded(song.(hasPlaylist := value == "yes"))
    else if key == MTIME then Loaded(song.(mtime := ParseInt(value)))
    else if key == RANGE then Loaded(WithRange(song, value))
    else UnknownLine
  }

  function WithLine(song: Song, enabled: set<nat>, line: string): Result {
    var i := Find(line, ':');
    if i == |line| || i == 0 then UnknownLine
    else WithValue(song, enabled, line[..i], StripLeft(line[i + 1..]))
  }

  function LoadLines(song: Song, enabled: set<nat>, text: string): Result
    decreases |text|
  {
    var next := ReadLine(text);
    if next == None || next.value.0 == SONG_END then Loaded(song)
    else
      var r := WithLine(song, enabled, next.value.0);
      if r == UnknownLine then r else LoadLines(r.song, enabled, next.value.1)
  }

  function NewSong(uri: string): Song {
    Song(uri, 0, 0, false, 0, [])
  }

  /** The loader behind a line that announces a song. */
  function Load(enabled: set<nat>, text: string): Result {
    var first := ReadLine(text);
    if first.Some? && SONG_BEGIN <= first.value.0 then
      LoadLines(NewSong(first.value.0[|SONG_BEGIN|..]), enabled, first.value.1)
    else UnknownLine
  }

  /** The line loop. */
  method SongLoad(enabled: set<nat>, text: string, uri: string) returns (r: Result)
    ensures r == LoadLines(NewSong(uri), enabled, text)
  {
    var song, rest := NewSong(uri), text;
    var next := ReadLine(rest);
    while next.Some? && next.value.0 != SONG_END
      invariant next == ReadLine(rest)
      invariant LoadLines(song, enabled, rest) == LoadLines(NewSong(uri), enabled, text)
      decreases |rest|
    {
      var line := next.value.0;
      r := WithLine(song, enabled, line);
      if r == UnknownLine {
        return;
      }
      song, rest := r.song, next.value.1;
      next := ReadLine(rest);
    }
    r := Loaded(song);
  }

  // ---------------------------------------------------------------------------------------
  // Saving

  function RangeText(start: nat, end: nat): string {
    if end > 0 then RANGE + ": " + (Decimal(start) + "-" + Decimal(end)) + "\n"
    else if start > 0 then RANGE + ": " + (Decimal(start) + "-") + "\n"
    else []
  }

  function TimeText(time: Option<string>): string {
    if time.Some? then TIME + ": " + time.value + "\n" else []
  }

  function PlaylistText(hasPlaylist: bool): string {
    if hasPlaylist then PLAYLIST + ": " + "yes" + "\n" else []
  }

  predicate KnownKinds(items: seq<Item>) {
    forall i :: 0 <= i < |items| ==> items[i].kind < |TAGS|
  }

  function ItemsText(items: seq<Item>): string
    requires KnownKinds(items)
  {
    if items == [] then []
    else TAGS[items[0].kind] + ": " + items[0].value + "\n" + ItemsText(items[1..])
  }

  /** The text; `time` is the printed duration, if there is one. */
  function Save(song: Song, time: Option<string>): string
    requires KnownKinds(song.items)
  {
    SONG_BEGIN + song.uri + "\n" + Body(song, time)
  }

  /** Everything behind the first line. */
  function Body(song: Song, time: Option<string>): string
    requires KnownKinds(song.items)
  {
    RangeText(song.start, song.end) + (TimeText(time) + (PlaylistText(song.hasPlaylist) + (ItemsText(song.items) +
    (MTIME + ": " + Signed(song.mtime) + "\n" + (SONG_END + "\n" + [])))))
  }

  lemma NextItemText(items: seq<Item>, i: nat, text: string, line: string)
    requires KnownKinds(items) && i < |items| && line == TAGS[items[i].kind] + ": " + items[i].value + "\n"
    ensures text + ItemsText(items[i..]) == text + line + ItemsText(items[i + 1..])
  {
    assert items[i..][1..] == items[i + 1..];
    assert text + (line + ItemsText(items[i + 1..])) == text + line + ItemsText(items[i + 1..]);
  }

  /** The printing loop over the tags. */
  method TagSave(items: seq<Item>) returns (text: string)
    requires KnownKinds(items)
    ensures text == ItemsText(items)
  {
    hide ItemsText;
    text := [];
    var i := 0;
    assert items[0..] == items && text + ItemsText(items) == ItemsText(items);
    while i < |items|
      invariant 0 <= i <= |items| && text + ItemsText(items[i..]) == ItemsText(items)
    {
      var line := TAGS[items[i].kind] + ": " + items[i].value + "\n";
      NextItemText(items, i, text, line);
      text := text + line;
      i := i + 1;
    }
    NoItemsLeft(items, text);
  }

  lemma NoItemsLeft(items: seq<Item>, text: string)
    requires KnownKinds(items)
    ensures text + ItemsText(items[|items|..]) == text
  {
  }

  // ---------------------------------------------------------------------------------------
  // The round trip

  /** A value that the tag builder takes as it is: no control characters, no blank in front. */
  predicate PlainValue(v: string) {
    v != [] && v[0] > ' ' && forall i :: 0 <= i < |v| ==> v[i] >= ' '
  }

  predicate PlainItem(enabled: set<nat>, item: Item) {
    item.kind < |TAGS| && item.kind in enabled && PlainValue(item.value)
  }

  ghost predicate PlainItems(enabled: set<nat>, items: seq<Item>) {
    forall i :: 0 <= i < |items| ==> PlainItem(enabled, items[i])
  }

  /** What the lines after the first can restore. */
  ghost predicate PlainBody(enabled: set<nat>, song: Song) {
    song.start < TWO32 && song.end < TWO32 && Int32(song.mtime) && PlainItems(enabled, song.items)
  }

  /** The songs whose text loads back. */
  ghost predicate WellFormed(enabled: set<nat>, song: Song) {
    PlainLine(song.uri) && PlainBody(enabled, song)
  }

  /** A printed number. */
  predicate Numeral(s: string) {
    s != [] && forall i :: 0 <= i < |s| ==> IsDigit(s[i]) || s[i] == '.' || s[i] == '-'
  }

  function After(r: Result, enabled: set<nat>, rest: string): Result {
    if r == UnknownLine then r else LoadLines(r.song, enabled, rest)
  }

  lemma LineStep(song: Song, enabled: set<nat>, key: string, value: string, rest: string)
    requires key != [] && ':' !in key && '\n' !in key && PlainLine(value)
    ensures LoadLines(song, enabled, key + ": " + value + "\n" + rest) ==
            After(WithValue(song, enabled, key, StripLeft(value)), enabled, rest)
  {
    hide WithLine, WithValue;
    var line := key + ": " + value;
    assert PlainLine(line);
    LineIsRead(line, rest);
    assert line[|key|] == ':' && line != SONG_END;
    KeyIsFound(song, enabled, key, value);
  }

  lemma KeyIsFound(song: Song, enabled: set<nat>, key: string, value: string)
    requires key != [] && ':' !in key
    ensures WithLine(song, enabled, key + ": " + value) == WithValue(song, enabled, key, StripLeft(value))
  {
    hide WithValue;
    var line := key + ": " + value;
    assert line == key + [':'] + (" " + value);
    FindFirst(key, ':', " " + value);
    assert line[..|key|] == key && line[|key| + 1..] == " " + value;
    assert (" " + value)[1..] == value;
    assert StripLeft(" " + value) == StripLeft(value);
  }

  lemma TagsArePlain(k: nat)
    requires k < |TAGS|
    ensures TAGS[k] != [] && ':' !in TAGS[k] && '\n' !in TAGS[k]
  {
  }

  lemma ItemIsLoaded(song: Song, enabled: set<nat>, item: Item, rest: string)
    requires PlainItem(enabled, item)
    ensures LoadLines(song, enabled, TAGS[item.kind] + ": " + item.value + "\n" + rest) ==
            LoadLines(song.(items := song.items + [item]), enabled, rest)
  {
    hide LoadLines;
    TagsArePlain(item.kind);
    LineStep(song, enabled, TAGS[item.kind], item.value, rest);
    TagIsFound(item.kind);
    assert Cleared(item.value) == item.value;
  }

  lemma {:induction false} ItemsAreLoaded(song: Song, enabled: set<nat>, items: seq<Item>, rest: string)
    requires PlainItems(enabled, items)
    ensures KnownKinds(items)
    ensures LoadLines(song, enabled, ItemsText(items) + rest) ==
            LoadLines(song.(items := song.items + items), enabled, rest)
    decreases |items|
  {
    hide LoadLines;
    if items == [] {
      assert song.items + items == song.items && ItemsText(items) + rest == rest;
    } else {
      var line, more := TAGS[items[0].kind] + ": " + items[0].value + "\n", ItemsText(items[1..]);
      assert line + more + rest == line + (more + rest);
      ItemIsLoaded(song, enabled, items[0], more + rest);
      var song' := song.(items := song.items + [items[0]]);
      ItemsAreLoaded(song', enabled, items[1..], rest);
      assert song'.items + items[1..] == song.items + items;
    }
  }

  lemma PlainNumbers(n: nat)
    ensures PlainLine(Decimal(n)) && StripLeft(Decimal(n)) == Decimal(n) && PlainLine("-" + Decimal(n))
    ensures StripLeft("-" + Decimal(n)) == "-" + Decimal(n)
  {
    assert IsDigit(Decimal(n)[0]);
  }

  lemma MtimeIsLoaded(song: Song, enabled: set<nat>, mtime: int, rest: string)
    requires Int32(mtime)
    ensures LoadLines(song, enabled, MTIME + ": " + Signed(mtime) + "\n" + rest) ==
            LoadLines(song.(mtime := mtime), enabled, rest)
  {
    hide LoadLines, ParseInt;
    PlainNumbers(if mtime < 0 then -mtime else mtime);
    LineStep(song, enabled, MTIME, Signed(mtime), rest);
    KeyIsNoTag(MTIME);
    IntRoundTrip(mtime);
  }

  lemma UnsignedIsParsed(n: nat, rest: string)
    requires n < TWO32 && NoDigit(rest)
    ensures ParseUnsigned(Decimal(n) + rest) == (n, rest)
  {
    hide Number, Decimal, NoDigit;
    NumberReadsDecimal(n, rest);
    SmallRemainder(n);
  }

  /** Greater numbers than 32 bits lose their high bits, and those beyond 64 bits are the greatest. */
  lemma UnsignedWraps(n: nat, rest: string)
    requires NoDigit(rest)
    ensures ParseUnsigned(Decimal(n) + rest) == (if n < TWO64 then n % TWO32 else TWO32 - 1, rest)
    ensures ParseUnsigned("-" + Decimal(n) + rest) ==
            (if n < TWO64 then (TWO32 - n % TWO32) % TWO32 else TWO32 - 1, rest)
  {
    hide Number, Decimal, NoDigit;
    NumberReadsDecimal(n, rest);
    assert (0 - n) % TWO32 == (TWO32 - n % TWO32) % TWO32;
  }

  /** So do modification times; beyond 64 bits they become -1 or 0. */
  lemma IntWraps(n: nat, rest: string)
    requires NoDigit(rest)
    ensures ParseInt(Decimal(n) + rest) == if n < TWO64 / 2 then Truncate(n) else -1
    ensures ParseInt("-" + Decimal(n) + rest) == if n <= TWO64 / 2 then Truncate(0 - n) else 0
  {
    hide Number, Decimal, NoDigit;
    NumberReadsDecimal(n, rest);
  }

  lemma SmallRemainder(n: nat)
    requires n < TWO32
    ensures n % TWO32 == n
  {
  }

  lemma RangeIsParsed(song: Song, start: nat, end: nat)
    requires start < TWO32 && end < TWO32
    ensures WithRange(song, Decimal(start) + "-" + Decimal(end)) == song.(start := start, end := end)
    ensures WithRange(song, Decimal(start) + "-") == song.(start := start, end := 0)
  {
    assert ParseUnsigned([]).0 == 0;
    hide ParseUnsigned, Decimal;
    var tail := "-" + Decimal(end);
    assert Decimal(start) + "-" + Decimal(end) == Decimal(start) + tail;
    UnsignedIsParsed(start, tail);
    UnsignedIsParsed(start, "-");
    assert tail[1..] == Decimal(end) + [];
    UnsignedIsParsed(end, []);
    assert "-"[1..] == [];
  }

  lemma RangeIsLoaded(song: Song, enabled: set<nat>, start: nat, end: nat, rest: string)
    requires start < TWO32 && end < TWO32 && song.start == 0 && song.end == 0
    ensures LoadLines(song, enabled, RangeText(start, end) + rest) ==
            LoadLines(song.(start := start, end := end), enabled, rest)
  {
    hide LoadLines, WithRange, Decimal;
    KeyIsNoTag(RANGE);
    RangeIsParsed(song, start, end);
    if end > 0 {
      PlainRange(start, Decimal(end));
      LineStep(song, enabled, RANGE, Decimal(start) + "-" + Decimal(end), rest);
    } else if start > 0 {
      PlainRange(start, []);
      assert Decimal(start) + "-" + [] == Decimal(start) + "-";
      LineStep(song, enabled, RANGE, Decimal(start) + "-", rest);
    } else {
      assert RangeText(start, end) + rest == rest;
    }
  }

  lemma PlainRange(n: nat, tail: string)
    requires forall i :: 0 <= i < |tail| ==> IsDigit(tail[i])
    ensures var s := Decimal(n) + "-" + tail; PlainLine(s) && StripLeft(s) == s
  {
    var s := Decimal(n) + "-" + tail;
    assert IsDigit(s[0]);
  }

  lemma TimeIsSkipped(song: Song, enabled: set<nat>, time: Option<string>, rest: string)
    requires time.Some? ==> Numeral(time.value)
    ensures LoadLines(song, enabled, TimeText(time) + rest) == LoadLines(song, enabled, rest)
  {
    hide LoadLines;
    if time.Some? {
      LineStep(song, enabled, TIME, time.value, rest);
      KeyIsNoTag(TIME);
    } else {
      assert TimeText(time) + rest == rest;
    }
  }

  lemma PlaylistIsLoaded(song: Song, enabled: set<nat>, hasPlaylist: bool, rest: string)
    requires !song.hasPlaylist
    ensures LoadLines(song, enabled, PlaylistText(hasPlaylist) + rest) ==
            LoadLines(song.(hasPlaylist := hasPlaylist), enabled, rest)
  {
    hide LoadLines;
    if hasPlaylist {
      LineStep(song, enabled, PLAYLIST, "yes", rest);
      KeyIsNoTag(PLAYLIST);
    } else {
      assert PlaylistText(hasPlaylist) + rest == rest;
    }
  }

  lemma EndIsSeen(song: Song, enabled: set<nat>)
    ensures LoadLines(song, enabled, SONG_END + "\n" + []) == Loaded(song)
  {
    LineIsRead(SONG_END, []);
  }

  /** Everything behind the first line is restored. */
  lemma BodyIsLoaded(song: Song, enabled: set<nat>, time: Option<string>)
    requires PlainBody(enabled, song) && (time.Some? ==> Numeral(time.value))
    ensures KnownKinds(song.items)
    ensures LoadLines(NewSong(song.uri), enabled, Body(song, time)) == Loaded(song)
  {
    hide LoadLines, RangeText, TimeText, PlaylistText, ItemsText, Signed;
    var end := SONG_END + "\n" + [];
    var s1 := NewSong(song.uri).(start := song.start, end := song.end);
    var s2 := s1.(hasPlaylist := song.hasPlaylist);
    var s3 := s2.(items := s2.items + song.items);
    ItemsAreLoaded(s2, enabled, song.items, MTIME + ": " + Signed(song.mtime) + "\n" + end);
    var t3 := ItemsText(song.items) + (MTIME + ": " + Signed(song.mtime) + "\n" + end);
    var t2 := PlaylistText(song.hasPlaylist) + t3;
    RangeIsLoaded(NewSong(song.uri), enabled, song.start, song.end, TimeText(time) + t2);
    TimeIsSkipped(s1, enabled, time, t2);
    PlaylistIsLoaded(s1, enabled, song.hasPlaylist, t3);
    MtimeIsLoaded(s3, enabled, song.mtime, end);
    EndIsSeen(s3.(mtime := song.mtime), enabled);
    assert s2.items + song.items == song.items;
  }

  /** The first line is restored up to a carriage return at its end. */
  lemma UriIsRead(song: Song, enabled: set<nat>, time: Option<string>)
    requires KnownKinds(song.items) && '\n' !in song.uri
    ensures Load(enabled, Save(song, time)) == LoadLines(NewSong(ChopReturn(song.uri)), enabled, Body(song, time))
  {
    hide LoadLines, Body;
    var line := SONG_BEGIN + song.uri;
    LineIsRead(line, Body(song, time));
    assert ChopReturn(line) == SONG_BEGIN + ChopReturn(song.uri);
    assert (SONG_BEGIN + ChopReturn(song.uri))[|SONG_BEGIN|..] == ChopReturn(song.uri);
  }

  /** Whatever the text, a loaded song has the announced URI and a body that can be saved. */
  lemma {:induction false} LoadedIsPlain(song: Song, enabled: set<nat>, text: string)
    requires PlainBody(enabled, song)
    ensures var r := LoadLines(song, enabled, text); r.Loaded? ==> r.song.uri == song.uri && PlainBody(enabled, r.song)
    decreases |text|
  {
    var next := ReadLine(text);
    if next.Some? && next.value.0 != SONG_END {
      LineKeepsPlain(song, enabled, next.value.0);
      var r := WithLine(song, enabled, next.value.0);
      if r.Loaded? {
        LoadedIsPlain(r.song, enabled, next.value.1);
      }
    }
  }

  lemma LineKeepsPlain(song: Song, enabled: set<nat>, line: string)
    requires PlainBody(enabled, song)
    ensures var r := WithLine(song, enabled, line); r.Loaded? ==> r.song.uri == song.uri && PlainBody(enabled, r.song)
  {
    hide ParseUnsigned, ParseInt, TagNamed;
    var i := Find(line, ':');
    if i != |line| && i != 0 {
      var v := StripLeft(line[i + 1..]);
      assert v != [] ==> PlainValue(Cleared(v));
    }
  }

  /** The text of a song loads back exactly if the song is well-formed. */
  lemma RoundTripExactly(song: Song, enabled: set<nat>, time: Option<string>)
    requires KnownKinds(song.items) && (time.Some? ==> Numeral(time.value))
    ensures Load(enabled, Save(song, time)) == Loaded(song) <==> WellFormed(enabled, song)
  {
    hide LoadLines, Body, PlainBody;
    if PlainLine(song.uri) {
      UriIsRead(song, enabled, time);
      if PlainBody(enabled, song) {
        BodyIsLoaded(song, enabled, time);
      }
    }
    if Load(enabled, Save(song, time)) == Loaded(song) {
      LoadedSongIsWellFormed(song, enabled, time);
    }
  }

  lemma LoadedSongIsWellFormed(song: Song, enabled: set<nat>, time: Option<string>)
    requires KnownKinds(song.items) && Load(enabled, Save(song, time)) == Loaded(song)
    ensures WellFormed(enabled, song)
  {
    hide LoadLines, Save;
    var first := ReadLine(Save(song, time));
    var uri := first.value.0[|SONG_BEGIN|..];
    LoadedIsPlain(NewSong(uri), enabled, first.value.1);
    assert song.uri == uri;
    UriIsRead(song, enabled, time);
    LoadedIsPlain(NewSong(ChopReturn(uri)), enabled, Body(song, time));
  }

  // ---------------------------------------------------------------------------------------
  // What any text says

  /** The lines of the song, without the one that ends it. */
  function Lines(text: string): seq<string>
    decreases |text|
  {
    var next := ReadLine(text);
    if next == None || next.value.0 == SONG_END then [] else [next.value.0] + Lines(next.value.1)
  }

  predicate HasKey(line: string, key: string) { key + ":" <= line }

  function ValueOf(line: string, key: string): string
    requires HasKey(line, key)
  {
    StripLeft(line[|key| + 1..])
  }

  /** The line has a key that the loader knows. */
  ghost predicate KnownLine(line: string) {
    HasKey(line, TIME) || HasKey(line, PLAYLIST) || HasKey(line, RANGE) || HasKey(line, MTIME) ||
    exists k :: 0 <= k < |TAGS| && HasKey(line, TAGS[k])
  }

  /** The value of the last line with that key. */
  function LastValue(lines: seq<string>, key: string): Option<string> {
    if lines == [] then None
    else
      var later := LastValue(lines[1..], key);
      if later.Some? then later else if HasKey(lines[0], key) then Some(ValueOf(lines[0], key)) else None
  }

  /** The items of the tag lines, in order; empty values and disabled tags do not count. */
  function TagItems(lines: seq<string>, enabled: set<nat>): seq<Item> {
    if lines == [] then [] else LineItem(lines[0], enabled, 0) + TagItems(lines[1..], enabled)
  }

  function LineItem(line: string, enabled: set<nat>, k: nat): seq<Item>
    requires k <= |TAGS|
    decreases |TAGS| - k
  {
    if k == |TAGS| then []
    else if !HasKey(line, TAGS[k]) then LineItem(line, enabled, k + 1)
    else if k in enabled && ValueOf(line, TAGS[k]) != [] then [Item(k, Cleared(ValueOf(line, TAGS[k])))]
    else []
  }

  /** What the lines make of a song: of every field the last line decides. */
  function Told(song: Song, enabled: set<nat>, lines: seq<string>): Song {
    var playlist, mtime, range := LastValue(lines, PLAYLIST), LastValue(lines, MTIME), LastValue(lines, RANGE);
    var ranged := if range == None then song else WithRange(song, range.value);
    Song(song.uri, ranged.start, ranged.end,
         if playlist == None then song.hasPlaylist else playlist.value == "yes",
         if mtime == None then song.mtime else ParseInt(mtime.value),
         song.items + TagItems(lines, enabled))
  }

  lemma KeyIsPrefix(line: string, key: string)
    requires key != [] && ':' !in key
    ensures HasKey(line, key) <==> Find(line, ':') == |key| < |line| && line[..|key|] == key
  {
    hide Find;
    if HasKey(line, key) {
      FindFirst(key, ':', line[|key| + 1..]);
      assert line == key + [':'] + line[|key| + 1..];
    }
    if Find(line, ':') == |key| < |line| && line[..|key|] == key {
      assert line == key + ":" + line[|key| + 1..];
    }
  }

  lemma {:induction false} LineItemIs(line: string, enabled: set<nat>, k: nat, found: nat)
    requires k <= found <= |TAGS| && (forall j :: k <= j < found ==> !HasKey(line, TAGS[j]))
    requires found < |TAGS| ==> HasKey(line, TAGS[found])
    ensures LineItem(line, enabled, k) ==
            if found < |TAGS| && found in enabled && ValueOf(line, TAGS[found]) != []
            then [Item(found, Cleared(ValueOf(line, TAGS[found])))] else []
    decreases found - k
  {
    if k < found {
      LineItemIs(line, enabled, k + 1, found);
    }
  }

  /** Whether the part in front of the first colon is that key. */
  predicate Starts(line: string, key: string) {
    var i := Find(line, ':'); 0 < i < |line| && line[..i] == key
  }

  lemma TagsOfLine(line: string)
    ensures forall k :: 0 <= k < |TAGS| ==> (HasKey(line, TAGS[k]) <==> Starts(line, TAGS[k]))
  {
    hide HasKey;
    forall k | 0 <= k < |TAGS|
      ensures HasKey(line, TAGS[k]) <==> Starts(line, TAGS[k])
    {
      TagsArePlain(k);
      KeyIsPrefix(line, TAGS[k]);
    }
  }

  lemma KeysOfLine(line: string)
    ensures HasKey(line, TIME) <==> Starts(line, TIME)
    ensures HasKey(line, PLAYLIST) <==> Starts(line, PLAYLIST)
    ensures HasKey(line, RANGE) <==> Starts(line, RANGE)
    ensures HasKey(line, MTIME) <==> Starts(line, MTIME)
  {
    hide HasKey, Find;
    KeyIsPrefix(line, TIME);
    KeyIsPrefix(line, PLAYLIST);
    KeyIsPrefix(line, RANGE);
    KeyIsPrefix(line, MTIME);
  }

  lemma OneLine(enabled: set<nat>, line: string)
    ensures LastValue([line], PLAYLIST) == if HasKey(line, PLAYLIST) then Some(ValueOf(line, PLAYLIST)) else None
    ensures LastValue([line], MTIME) == if HasKey(line, MTIME) then Some(ValueOf(line, MTIME)) else None
    ensures LastValue([line], RANGE) == if HasKey(line, RANGE) then Some(ValueOf(line, RANGE)) else None
    ensures TagItems([line], enabled) == LineItem(line, enabled, 0)
  {
    hide HasKey, ValueOf, LineItem;
    assert [line][1..] == [];
  }

  lemma TagLineTells(song: Song, enabled: set<nat>, line: string, kind: nat)
    requires kind < |TAGS| && Starts(line, TAGS[kind])
    ensures KnownLine(line) && HasKey(line, TAGS[kind])
    ensures Told(song, enabled, [line]) == WithItem(song, enabled, kind, ValueOf(line, TAGS[kind]))
  {
    hide HasKey, ValueOf, Find, LineItem, TagItems, LastValue, Cleared;
    TagsOfLine(line);
    KeysOfLine(line);
    assert HasKey(line, TAGS[kind]);
    TagIsFound(kind);
    NoKeyIsATag(kind);
    assert forall j :: 0 <= j < kind ==> TAGS[j] != TAGS[kind];
    LineItemIs(line, enabled, 0, kind);
    OneLine(enabled, line);
    assert song.items + [] == song.items;
  }

  lemma NoKeyIsATag(kind: nat)
    requires kind < |TAGS|
    ensures !IsKey(TAGS[kind])
  {
    TagIsFound(kind);
    if IsKey(TAGS[kind]) {
      KeyIsNoTag(TAGS[kind]);
    }
  }

  lemma KeyLineTells(song: Song, enabled: set<nat>, line: string, key: string)
    requires IsKey(key) && Starts(line, key)
    ensures KnownLine(line) && HasKey(line, key)
    ensures Loaded(Told(song, enabled, [line])) == WithValue(song, enabled, key, ValueOf(line, key))
  {
    hide HasKey, ValueOf, Find, LineItem, TagItems, LastValue, ParseInt, ParseUnsigned;
    TagsOfLine(line);
    KeysOfLine(line);
    KeyIsNoTag(key);
    LineItemIs(line, enabled, 0, |TAGS|);
    OneLine(enabled, line);
    KeysDiffer();
    assert song.items + [] == song.items;
  }

  /** One line: it is refused exactly if its key is not known. */
  lemma LineTells(song: Song, enabled: set<nat>, line: string)
    ensures WithLine(song, enabled, line) ==
            if KnownLine(line) then Loaded(Told(song, enabled, [line])) else UnknownLine
  {
    hide HasKey, Told, WithItem, WithRange, StripLeft;
    TagsOfLine(line);
    KeysOfLine(line);
    var i := Find(line, ':');
    if 0 < i < |line| {
      var kind := TagNamed(line[..i], 0);
      if kind < |TAGS| {
        TagLineTells(song, enabled, line, kind);
      } else if IsKey(line[..i]) {
        KeyLineTells(song, enabled, line, line[..i]);
      }
    }
  }

  lemma KeysDiffer()
    ensures TIME != PLAYLIST && TIME != RANGE && TIME != MTIME
    ensures PLAYLIST != RANGE && PLAYLIST != MTIME && RANGE != MTIME
  {
    assert |TIME| == 4 && |PLAYLIST| == 8 && |RANGE| == 5 && |MTIME| == 5 && RANGE[0] != MTIME[0];
  }

  lemma LastOn(line: string, lines: seq<string>, key: string)
    ensures LastValue([line] + lines, key) ==
            if LastValue(lines, key).Some? then LastValue(lines, key) else LastValue([line], key)
  {
    hide HasKey, ValueOf;
    assert ([line] + lines)[1..] == lines && [line][1..] == [];
  }

  lemma ToldOn(song: Song, enabled: set<nat>, line: string, lines: seq<string>)
    ensures Told(Told(song, enabled, [line]), enabled, lines) == Told(song, enabled, [line] + lines)
  {
    LastOn(line, lines, PLAYLIST);
    LastOn(line, lines, MTIME);
    LastOn(line, lines, RANGE);
    OneLine(enabled, line);
    assert ([line] + lines)[1..] == lines;
    assert song.items + TagItems([line], enabled) + TagItems(lines, enabled) ==
           song.items + TagItems([line] + lines, enabled);
    hide HasKey, ParseInt, ParseUnsigned, LineItem, LastValue, TagItems;
  }

  ghost predicate AllKnown(lines: seq<string>) {
    forall k :: 0 <= k < |lines| ==> KnownLine(lines[k])
  }

  /**
   Any text at all: it is refused exactly if one of its lines has no key the loader knows, and
   otherwise of every field the last line decides, and the tags are those of the tag lines.
   */
  lemma {:induction false} LoadsWhatIsSaid(song: Song, enabled: set<nat>, text: string)
    ensures LoadLines(song, enabled, text) ==
            if AllKnown(Lines(text)) then Loaded(Told(song, enabled, Lines(text))) else UnknownLine
    decreases |text|
  {
    hide KnownLine, Told, WithLine;
    var next := ReadLine(text);
    if next == None || next.value.0 == SONG_END {
      NothingTold(song, enabled);
    } else {
      var line, lines := next.value.0, Lines(next.value.1);
      assert Lines(text) == [line] + lines && Lines(text)[1..] == lines;
      LineTells(song, enabled, line);
      if KnownLine(line) {
        assert AllKnown(Lines(text)) <==> AllKnown(lines) by {
          assert forall k :: 0 <= k < |lines| ==> Lines(text)[k + 1] == lines[k];
        }
        LoadsWhatIsSaid(Told(song, enabled, [line]), enabled, next.value.1);
        ToldOn(song, enabled, line, lines);
      } else {
        assert !KnownLine(Lines(text)[0]);
      }
    }
  }

  lemma NothingTold(song: Song, enabled: set<nat>)
    ensures Told(song, enabled, []) == song
  {
  }
}
