/** The configuration file: lines `key=value` with comments, read through a fixed buffer that is cut in place, and
    written back one entry at a time. */
module ConfigFiles {
  import opened Common

  const LINE_SIZE: nat := 256     // the reader's buffer
  const PAIR_SIZE: nat := 128     // the writer's buffer

  // ---------------------------------------------------------------------------------------------------------------
  // Strings

  predicate IsBlank(c: char) {
    c == ' ' || c == '\t'
  }

  /** Where `c` first occurs; the length of `s` if it does not. */
  function IndexOf(s: string, c: char): (i: nat)
    ensures i <= |s|
  {
    if s == "" || s[0] == c then 0 else IndexOf(s[1..], c) + 1
  }

  function Before(s: string, c: char): string {
    s[..IndexOf(s, c)]
  }

  function FirstNonBlank(s: string): (i: nat)
    ensures i <= |s|
  {
    if s == "" || !IsBlank(s[0]) then 0 else FirstNonBlank(s[1..]) + 1
  }

  /** One past the last character that is not blank. */
  function EndOfNonBlank(s: string): (n: nat)
    ensures n <= |s|
  {
    if s == "" || !IsBlank(s[|s| - 1]) then |s| else EndOfNonBlank(s[..|s| - 1])
  }

  lemma {:induction false} IndexIs(s: string, c: char, i: nat)
    requires i <= |s| && (i < |s| ==> s[i] == c) && forall j :: 0 <= j < i ==> s[j] != c
    ensures IndexOf(s, c) == i
  {
    if i > 0 {
      IndexIs(s[1..], c, i - 1);
    }
  }

  lemma {:induction false} IndexFound(s: string, c: char)
    ensures var i := IndexOf(s, c); (i < |s| ==> s[i] == c) && forall j :: 0 <= j < i ==> s[j] != c
  {
    if s != "" && s[0] != c {
      IndexFound(s[1..], c);
      forall j | 0 <= j < IndexOf(s, c) ensures s[j] != c {
        if j > 0 { assert s[j] == s[1..][j - 1]; }
      }
    }
  }

  lemma {:induction false} FirstIs(s: string, i: nat)
    requires i <= |s| && (i < |s| ==> !IsBlank(s[i])) && forall j :: 0 <= j < i ==> IsBlank(s[j])
    ensures FirstNonBlank(s) == i
  {
    if i > 0 {
      FirstIs(s[1..], i - 1);
    }
  }

  lemma {:induction false} EndIs(s: string, n: nat)
    requires n <= |s| && (n > 0 ==> !IsBlank(s[n - 1])) && forall j :: n <= j < |s| ==> IsBlank(s[j])
    ensures EndOfNonBlank(s) == n
    decreases |s|
  {
    if n < |s| {
      EndIs(s[..|s| - 1], n);
    }
  }

  /** `s` without blanks at either end. */
  function Trim(s: string): string {
    if FirstNonBlank(s) < EndOfNonBlank(s) then s[FirstNonBlank(s)..EndOfNonBlank(s)] else ""
  }

  predicate Trimmed(s: string) {
    s != "" && !IsBlank(s[0]) && !IsBlank(s[|s| - 1])
  }

  // ---------------------------------------------------------------------------------------------------------------
  // What a file means

  function Chop(s: string): string {
    if s != "" && s[|s| - 1] == '\n' then s[..|s| - 1] else s
  }

  /** The characters one fgets takes: up to and with a newline, but never more than fit the buffer. */
  function ChunkLength(text: string): (n: nat)
    requires text != ""
    ensures 0 < n <= |text|
  {
    var n := IndexOf(text, '\n') + 1;
    if n <= |text| && n < LINE_SIZE then n
    else if |text| < LINE_SIZE then |text| else LINE_SIZE - 1
  }

  /** A chunk as the parser sees it: up to a NUL, without its newline, without a comment. */
  function Line(chunk: string): string {
    Before(Chop(Before(chunk, '\0')), '#')
  }

  function Parse(line: string): Option<(string, string)> {
    var p := IndexOf(line, '=');
    if p == |line| then None
    else
      var key, value := Trim(line[..p]), Trim(line[p + 1..]);
      if key == "" || value == "" then None else Some((key, value))
  }

  /** std::map::insert keeps an entry that is already there. */
  function Insert(m: map<string, string>, entry: Option<(string, string)>): map<string, string> {
    if entry.None? || entry.value.0 in m then m else m[entry.value.0 := entry.value.1]
  }

  function Load(m: map<string, string>, text: string): map<string, string>
    decreases |text|
  {
    if text == "" then m
    else
      var n := ChunkLength(text);
      Load(Insert(m, Parse(Line(text[..n]))), text[n..])
  }

  /** No chunk starts with a NUL; the code would look one before its buffer on such a chunk. */
  predicate Readable(text: string)
    decreases |text|
  {
    text == "" || (text[0] != '\0' && Readable(text[ChunkLength(text)..]))
  }

  /** One snprintf of an entry into the writer's buffer. */
  function Printed(key: string, value: string): string {
    var s := Before(key, '\0') + "=" + Before(value, '\0') + "\n";
    if |s| < PAIR_SIZE then s else s[..PAIR_SIZE - 1]
  }

  function Print(m: map<string, string>, order: seq<string>): string
    requires forall k :: k in order ==> k in m
  {
    if order == [] then "" else Printed(order[0], m[order[0]]) + Print(m, order[1..])
  }

  // ---------------------------------------------------------------------------------------------------------------
  // The round trip

  predicate Plain(s: string) {
    Trimmed(s) && '#' !in s && '\0' !in s && '\n' !in s
  }

  predicate PlainEntry(key: string, value: string) {
    Plain(key) && Plain(value) && '=' !in key
  }

  /** An entry that fits the writer's buffer with its newline. */
  predicate Storable(key: string, value: string) {
    PlainEntry(key, value) && |key| + |value| <= PAIR_SIZE - 3
  }

  lemma TrimOfTrimmed(s: string)
    requires Trimmed(s)
    ensures Trim(s) == s
  {
    FirstIs(s, 0);
    EndIs(s, |s|);
  }

  lemma NotInParts(c: char, a: string, b: string)
    requires c !in a && c !in b
    ensures c !in a + b
  {
  }

  function Entry(key: string, value: string): string {
    key + "=" + value
  }

  /** An entry the reader takes back whole; its buffer is larger than the writer's. */
  predicate Legible(key: string, value: string) {
    PlainEntry(key, value) && |key| + |value| <= 253
  }

  lemma CleanEntry(key: string, value: string, c: char)
    requires c !in key && c !in value && c != '='
    ensures c !in Entry(key, value)
  {
    NotInParts(c, key, "=");
    NotInParts(c, key + "=", value);
  }

  lemma ParseEntry(key: string, value: string)
    requires PlainEntry(key, value)
    ensures Parse(Entry(key, value)) == Some((key, value))
  {
    var line := Entry(key, value);
    IndexIs(line, '=', |key|);
    assert line[..|key|] == key && line[|key| + 1..] == value;
    TrimOfTrimmed(key);
    TrimOfTrimmed(value);
  }

  // What else a line may hold.

  /** A line by itself: cut at the first '#', then parsed. */
  lemma LoadLine(m: map<string, string>, line: string, rest: string)
    requires '\n' !in line && '\0' !in line && |line| < 255
    ensures Load(m, line + "\n" + rest) == Load(Insert(m, Parse(Before(line, '#'))), rest)
  {
    var chunk := line + "\n";
    var text := chunk + rest;
    IndexIs(text, '\n', |line|);
    NotInParts('\0', line, "\n");
    IndexIs(chunk, '\0', |chunk|);
    assert Before(chunk, '\0') == chunk && Chop(chunk) == line;
    assert text[..|chunk|] == chunk && text[|chunk|..] == rest;
  }

  predicate Blank(s: string) {
    forall i :: 0 <= i < |s| ==> IsBlank(s[i])
  }

  lemma TrimOfPadded(a: string, s: string, b: string)
    requires Blank(a) && Trimmed(s) && Blank(b)
    ensures Trim(a + s + b) == s
  {
    var t := a + s + b;
    FirstIs(t, |a|);
    EndIs(t, |a| + |s|);
    assert t[|a|..|a| + |s|] == s;
  }

  lemma BlankHasNo(s: string, c: char)
    requires Blank(s) && !IsBlank(c)
    ensures c !in s
  {
  }

  lemma ParsePadded(a: string, key: string, b: string, c: string, value: string, d: string)
    requires PlainEntry(key, value) && Blank(a) && Blank(b) && Blank(c) && Blank(d)
    ensures Parse(a + key + b + "=" + (c + value + d)) == Some((key, value))
  {
    var left, right := a + key + b, c + value + d;
    var line := left + "=" + right;
    BlankHasNo(a, '=');
    BlankHasNo(b, '=');
    NotInParts('=', a, key);
    NotInParts('=', a + key, b);
    IndexIs(line, '=', |left|);
    assert line[..|left|] == left && line[|left| + 1..] == right;
    TrimOfPadded(a, key, b);
    TrimOfPadded(c, value, d);
  }

  lemma CutComment(line: string, comment: string)
    requires '#' !in line && (comment == "" || comment[0] == '#')
    ensures Before(line + comment, '#') == line
  {
    IndexIs(line + comment, '#', |line|);
    assert (line + comment)[..|line|] == line;
  }

  lemma PaddedHasNo(a: string, key: string, b: string, x: char)
    requires Blank(a) && Blank(b) && !IsBlank(x) && x !in key
    ensures x !in a + key + b
  {
    BlankHasNo(a, x);
    BlankHasNo(b, x);
    NotInParts(x, a, key);
    NotInParts(x, a + key, b);
  }

  /** A plain entry with blanks around key and value and a comment behind loads as the entry. */
  lemma DecoratedEntry(m: map<string, string>, a: string, key: string, b: string, c: string, value: string, d: string,
                       comment: string, rest: string)
    requires PlainEntry(key, value) && Blank(a) && Blank(b) && Blank(c) && Blank(d)
    requires (comment == "" || comment[0] == '#') && '\n' !in comment && '\0' !in comment
    requires |a| + |key| + |b| + |c| + |value| + |d| + |comment| < 254
    ensures Load(m, a + key + b + "=" + (c + value + d) + comment + "\n" + rest) == Load(Insert(m, Some((key, value))), rest)
  {
    var left, right := a + key + b, c + value + d;
    var line := left + "=" + right;
    forall x | x in {'\n', '\0', '#'} ensures x !in line {
      PaddedHasNo(a, key, b, x);
      PaddedHasNo(c, value, d, x);
      NotInParts(x, left, "=");
      NotInParts(x, left + "=", right);
    }
    assert '\n' !in line && '\0' !in line && '#' !in line;
    NotInParts('\n', line, comment);
    NotInParts('\0', line, comment);
    LoadLine(m, line + comment, rest);
    CutComment(line, comment);
    ParsePadded(a, key, b, c, value, d);
  }

  /** A line without '=' before its comment adds nothing; a comment by itself is such a line. */
  lemma OtherLinesAddNothing(m: map<string, string>, line: string, comment: string, rest: string)
    requires '=' !in line && '#' !in line && (comment == "" || comment[0] == '#')
    requires '\n' !in line + comment && '\0' !in line + comment && |line + comment| < 255
    ensures Load(m, line + comment + "\n" + rest) == Load(m, rest)
  {
    LoadLine(m, line + comment, rest);
    CutComment(line, comment);
    IndexIs(line, '=', |line|);
  }

  lemma TrimOfBlank(s: string)
    requires Blank(s)
    ensures Trim(s) == ""
  {
    FirstIs(s, |s|);
  }

  /** Nor does a line with nothing on one side of its first '='. */
  lemma HalfEntryAddsNothing(m: map<string, string>, left: string, right: string, rest: string)
    requires '=' !in left && (Blank(left) || Blank(right)) && |left| + |right| < 254
    requires forall c :: c in {'#', '\n', '\0'} ==> c !in left && c !in right
    ensures Load(m, left + "=" + right + "\n" + rest) == Load(m, rest)
  {
    var line := left + "=" + right;
    forall c | c in {'#', '\n', '\0'} ensures c !in line {
      NotInParts(c, left, "=");
      NotInParts(c, left + "=", right);
    }
    assert '#' !in line && '\n' !in line && '\0' !in line;
    LoadLine(m, line, rest);
    CutComment(line, "");
    assert line + "" == line;
    IndexIs(line, '=', |left|);
    assert line[..|left|] == left && line[|left| + 1..] == right;
    if Blank(left) {
      TrimOfBlank(left);
    } else {
      TrimOfBlank(right);
    }
  }

  lemma LoadEntry(m: map<string, string>, key: string, value: string, rest: string)
    requires Legible(key, value)
    ensures Load(m, Entry(key, value) + "\n" + rest) == Load(Insert(m, Some((key, value))), rest)
  {
    var line := Entry(key, value);
    CleanEntry(key, value, '\n');
    CleanEntry(key, value, '\0');
    CleanEntry(key, value, '#');
    LoadLine(m, line, rest);
    CutComment(line, "");
    assert line + "" == line;
    ParseEntry(key, value);
  }

  /** What one entry prints as: whole with its newline, whole without, or cut. */
  lemma PrintedEntry(key: string, value: string)
    requires '\0' !in key && '\0' !in value
    ensures Printed(key, value) ==
            if |key| + |value| <= PAIR_SIZE - 3 then Entry(key, value) + "\n" else Entry(key, value)[..PAIR_SIZE - 1]
  {
    IndexIs(key, '\0', |key|);
    IndexIs(value, '\0', |value|);
    assert Before(key, '\0') == key && Before(value, '\0') == value;
  }

  ghost predicate Enumerates(order: seq<string>, keys: set<string>) {
    Distinct(order) && forall k :: k in keys <==> k in order
  }

  ghost predicate Distinct(order: seq<string>) {
    forall i, j :: 0 <= i < j < |order| ==> order[i] != order[j]
  }

  // Each chunk brings one entry at most, and entries without their newline share chunks.

  function Chunks(text: string): nat
    decreases |text|
  {
    if text == "" then 0 else 1 + Chunks(text[ChunkLength(text)..])
  }

  lemma {:induction false} LoadedAtMostChunks(m: map<string, string>, text: string)
    ensures m.Keys <= Load(m, text).Keys && |Load(m, text).Keys| <= |m.Keys| + Chunks(text)
    decreases |text|
  {
    if text != "" {
      var n := ChunkLength(text);
      var entry := Parse(Line(text[..n]));
      LoadedAtMostChunks(Insert(m, entry), text[n..]);
      if entry.Some? && entry.value.0 !in m {
        assert Insert(m, entry).Keys == m.Keys + {entry.value.0};
      }
    }
  }

  lemma ChunkToNewline(p: string, rest: string)
    requires '\n' !in p && |p| + 1 < LINE_SIZE
    ensures Chunks(p + "\n" + rest) == 1 + Chunks(rest)
  {
    var text := p + "\n" + rest;
    IndexIs(text, '\n', |p|);
    assert text[|p| + 1..] == rest;
  }

  /** A line of 255 characters or more is cut after the 255th. */
  lemma LongLineIsCut(p: string, rest: string)
    requires '\n' !in p && |p| >= 255
    ensures ChunkLength(p + rest) == 255
    ensures (p + rest)[..255] == p[..255] && (p + rest)[255..] == p[255..] + rest
  {
    IndexFound(p + rest, '\n');
    assert IndexOf(p + rest, '\n') >= |p|;
  }

  lemma FullChunk(p: string, rest: string)
    requires '\n' !in p && |p| >= 255
    ensures Chunks(p + rest) == 1 + Chunks(p[255..] + rest)
  {
    LongLineIsCut(p, rest);
  }

  lemma LastChunk(p: string)
    requires '\n' !in p && 0 < |p| < LINE_SIZE
    ensures ChunkLength(p) == |p| && Chunks(p) == 1
  {
    IndexIs(p, '\n', |p|);
    assert p[|p|..] == "";
  }

  /** One entry with its newline behind `p`: one chunk, or two. */
  lemma ShortEntryChunks(p: string, entry: string, rest: string)
    requires '\n' !in p && '\n' !in entry && |p| < LINE_SIZE - 1 && |entry| < PAIR_SIZE - 1
    ensures Chunks(p + (entry + "\n" + rest)) <= Chunks(rest) + (if |p| > PAIR_SIZE then 2 else 1)
  {
    NotInParts('\n', p, entry);
    Assoc(p, entry + "\n", rest);
    Assoc(p, entry, "\n");
    LineChunks(p + entry, rest);
  }

  lemma LineChunks(q: string, rest: string)
    requires '\n' !in q && |q| < 2 * LINE_SIZE - 2
    ensures Chunks(q + "\n" + rest) == Chunks(rest) + (if |q| + 1 < LINE_SIZE then 1 else 2)
  {
    if |q| + 1 < LINE_SIZE {
      ChunkToNewline(q, rest);
    } else {
      Assoc(q, "\n", rest);
      FullChunk(q, "\n" + rest);
      Assoc(q[LINE_SIZE - 1..], "\n", rest);
      ChunkToNewline(q[LINE_SIZE - 1..], rest);
    }
  }

  /** With `p` read but no newline yet, the entries still to come fill at most one chunk each, and one more only if `p`
      is so long that it cannot share a chunk with the first of them, or if there is none. */
  lemma {:induction false} FewChunks(m: map<string, string>, rest: seq<string>, p: string)
    requires '\n' !in p && |p| < LINE_SIZE - 1
    requires forall k :: k in rest ==> k in m && Plain(k) && Plain(m[k])
    ensures Chunks(p + Print(m, rest)) <= |rest| + (if |p| > PAIR_SIZE || (rest == [] && p != "") then 1 else 0)
    decreases |rest|
  {
    if rest == [] {
      assert p + Print(m, rest) == p;
      if p != "" {
        LastChunk(p);
      }
    } else {
      var key, value, later := rest[0], m[rest[0]], Print(m, rest[1..]);
      assert key in rest;
      PrintedEntry(key, value);
      CleanEntry(key, value, '\n');
      if |key| + |value| <= PAIR_SIZE - 3 {
        FewChunks(m, rest[1..], "");
        assert "" + later == later;
        ShortEntryChunks(p, Entry(key, value), later);
      } else {
        LongEntryChunks(m, rest, p);
      }
    }
  }

  lemma {:induction false} LongEntryChunks(m: map<string, string>, rest: seq<string>, p: string)
    requires '\n' !in p && |p| < LINE_SIZE - 1
    requires forall k :: k in rest ==> k in m && Plain(k) && Plain(m[k])
    requires rest != [] && |rest[0]| + |m[rest[0]]| > PAIR_SIZE - 3
    ensures Chunks(p + Print(m, rest)) <= |rest| + (if |p| > PAIR_SIZE then 1 else 0)
    decreases |rest|, 0
  {
    var key, value, later := rest[0], m[rest[0]], Print(m, rest[1..]);
    assert key in rest;
    PrintedEntry(key, value);
    CleanEntry(key, value, '\n');
    var q := p + Printed(key, value);
    NotInParts('\n', p, Printed(key, value));
    Assoc(p, Printed(key, value), later);
    if |q| < LINE_SIZE - 1 {
      FewChunks(m, rest[1..], q);
    } else {
      FullChunk(q, later);
      FewChunks(m, rest[1..], q[LINE_SIZE - 1..]);
    }
  }

  // When every entry is read back.

  /** The exact length condition: room for the newline in all entries but the last. */
  predicate AllFit(m: map<string, string>, order: seq<string>)
    requires forall k :: k in order ==> k in m
  {
    forall i :: 0 <= i < |order| ==> |order[i]| + |m[order[i]]| <= (if i == |order| - 1 then 126 else 125)
  }

  lemma AllFitStep(m: map<string, string>, order: seq<string>)
    requires (forall k :: k in order ==> k in m) && |order| > 1
    ensures AllFit(m, order) <==> |order[0]| + |m[order[0]]| <= PAIR_SIZE - 3 && AllFit(m, order[1..])
  {
    if AllFit(m, order) {
      forall i | 0 <= i < |order[1..]|
        ensures |order[1..][i]| + |m[order[1..][i]]| <= (if i == |order[1..]| - 1 then PAIR_SIZE - 2 else PAIR_SIZE - 3)
      {
        assert order[1..][i] == order[i + 1];
      }
    }
    if |order[0]| + |m[order[0]]| <= PAIR_SIZE - 3 && AllFit(m, order[1..]) {
      forall i | 0 < i < |order|
        ensures |order[i]| + |m[order[i]]| <= (if i == |order| - 1 then PAIR_SIZE - 2 else PAIR_SIZE - 3)
      {
        assert order[i] == order[1..][i - 1];
      }
    }
  }

  ghost predicate AllLoaded(m: map<string, string>, order: seq<string>, loaded: map<string, string>) {
    forall k :: k in order ==> k in m && k in loaded && loaded[k] == m[k]
  }

  lemma {:induction false} DistinctCount(order: seq<string>)
    requires Distinct(order)
    ensures |set k | k in order| == |order|
  {
    if order != [] {
      var rest := order[1..];
      DistinctCount(rest);
      assert (set k | k in order) == {order[0]} + (set k | k in rest);
      assert order[0] !in rest;
    }
  }

  /** Too few chunks: something is missing. */
  lemma TooFewChunks(m: map<string, string>, order: seq<string>, sofar: map<string, string>)
    requires forall k :: k in order ==> k in m && k !in sofar
    requires Distinct(order) && Chunks(Print(m, order)) < |order|
    ensures !AllLoaded(m, order, Load(sofar, Print(m, order)))
  {
    var loaded := Load(sofar, Print(m, order));
    LoadedAtMostChunks(sofar, Print(m, order));
    DistinctCount(order);
    var keys := set k | k in order;
    if AllLoaded(m, order, loaded) {
      assert sofar.Keys + keys <= loaded.Keys;
      Subset(sofar.Keys + keys, loaded.Keys);
    }
  }

  lemma Subset(a: set<string>, b: set<string>)
    requires a <= b
    ensures |a| <= |b|
  {
    assert b == a + (b - a);
  }

  lemma LastLine(text: string)
    requires '\0' !in text && '#' !in text && '\n' !in text && 0 < |text| < LINE_SIZE
    ensures forall m :: Load(m, text) == Insert(m, Parse(text))
  {
    LastChunk(text);
    IndexIs(text, '\0', |text|);
    IndexIs(text, '#', |text|);
    assert Before(text, '\0') == text && Chop(text) == text && Before(text, '#') == text;
    assert text[..|text|] == text && text[|text|..] == "";
  }

  lemma CutEntryIsMisread(key: string, value: string)
    requires PlainEntry(key, value) && |key| + |value| > PAIR_SIZE - 2
    ensures Parse(Entry(key, value)[..PAIR_SIZE - 1]) != Some((key, value))
  {
    var line := Entry(key, value)[..PAIR_SIZE - 1];
    if |key| >= PAIR_SIZE - 1 {
      IndexIs(line, '=', |line|);
    } else {
      IndexIs(line, '=', |key|);
      assert |line[|key| + 1..]| < |value|;
    }
  }

  /** The last entry may lack its newline, but not more. */
  lemma LastEntryLoadedIff(key: string, value: string, sofar: map<string, string>)
    requires PlainEntry(key, value) && key !in sofar
    ensures var loaded := Load(sofar, Printed(key, value));
            && (key in loaded && loaded[key] == value <==> |key| + |value| <= PAIR_SIZE - 2)
            && (|key| + |value| <= PAIR_SIZE - 2 ==> loaded == sofar[key := value])
  {
    PrintedEntry(key, value);
    ParseEntry(key, value);
    var text := Printed(key, value);
    if |key| + |value| <= PAIR_SIZE - 3 {
      LoadEntry(sofar, key, value, "");
      assert text + "" == text;
    } else {
      CleanEntry(key, value, '\0');
      CleanEntry(key, value, '#');
      CleanEntry(key, value, '\n');
      LastLine(text);
      if |key| + |value| == PAIR_SIZE - 2 {
        assert text == Entry(key, value);
      } else {
        CutEntryIsMisread(key, value);
      }
    }
  }

  /** Loading what was printed brings back all printed entries exactly if they fit, and then adds nothing else. */
  lemma {:induction false} LoadPrintedIff(m: map<string, string>, order: seq<string>, sofar: map<string, string>)
    requires forall k :: k in order ==> k in m && k !in sofar && PlainEntry(k, m[k])
    requires Distinct(order)
    ensures var loaded := Load(sofar, Print(m, order));
            && (AllLoaded(m, order, loaded) <==> AllFit(m, order))
            && (AllFit(m, order) ==> loaded.Keys == sofar.Keys + (set k | k in order))
    decreases |order|
  {
    if |order| == 1 {
      assert order[1..] == [];
      assert Print(m, order) == Printed(order[0], m[order[0]]);
      LastEntryLoadedIff(order[0], m[order[0]], sofar);
    } else if |order| > 1 {
      var key, rest := order[0], order[1..];
      AllFitStep(m, order);
      PrintedEntry(key, m[key]);
      if |key| + |m[key]| <= PAIR_SIZE - 3 {
        LoadFirst(m, order, sofar);
      } else {
        CleanEntry(key, m[key], '\n');
        FewChunks(m, rest, Printed(key, m[key]));
        TooFewChunks(m, order, sofar);
      }
    }
  }

  lemma {:induction false} LoadFirst(m: map<string, string>, order: seq<string>, sofar: map<string, string>)
    requires forall k :: k in order ==> k in m && k !in sofar && PlainEntry(k, m[k])
    requires Distinct(order) && |order| > 1 && |order[0]| + |m[order[0]]| <= PAIR_SIZE - 3
    ensures var loaded := Load(sofar, Print(m, order));
            && (AllLoaded(m, order, loaded) <==> AllFit(m, order[1..]))
            && (AllFit(m, order[1..]) ==> loaded.Keys == sofar.Keys + (set k | k in order))
    decreases |order|, 0
  {
    var key, rest := order[0], order[1..];
    var next := sofar[key := m[key]];
    PrintedEntry(key, m[key]);
    LoadEntry(sofar, key, m[key], Print(m, rest));
    assert key !in rest;
    LoadPrintedIff(m, rest, next);
    LoadKeeps(next, Print(m, rest), key);
    assert forall k :: k in order <==> k == key || k in rest;
  }

  lemma {:induction false} LoadKeeps(m: map<string, string>, text: string, key: string)
    requires key in m
    ensures key in Load(m, text) && Load(m, text)[key] == m[key]
    decreases |text|
  {
    if text != "" {
      var n := ChunkLength(text);
      LoadKeeps(Insert(m, Parse(Line(text[..n]))), text[n..], key);
    }
  }

  /** A map of trimmed, plain entries survives being written and loaded exactly if all entries have at most 125
      characters, the one written last at most 126. */
  lemma FileRoundTripIff(m: map<string, string>, order: seq<string>)
    requires Enumerates(order, m.Keys) && forall k :: k in m ==> PlainEntry(k, m[k])
    ensures Load(map[], Print(m, order)) == m <==> AllFit(m, order)
  {
    LoadPrintedIff(m, order, map[]);
  }

  /** In particular entries of at most 125 characters survive, whatever the order of writing. */
  lemma FileRoundTrip(m: map<string, string>, order: seq<string>)
    requires Enumerates(order, m.Keys) && forall k :: k in m ==> Storable(k, m[k])
    ensures Load(map[], Print(m, order)) == m
  {
    FileRoundTripIff(m, order);
  }

  /** One character more and the entry loses its newline: it runs into the entry written next. */
  lemma LongEntryRunsOn(key: string, value: string, key': string, value': string)
    requires PlainEntry(key, value) && |key| + |value| == PAIR_SIZE - 2 && Storable(key', value')
    ensures Load(map[], Printed(key, value) + Printed(key', value')) == map[key := value + Entry(key', value')]
  {
    PrintedEntry(key, value);
    PrintedEntry(key', value');
    var long := value + Entry(key', value');
    assert Plain(long) by {
      forall c | c in {'#', '\0', '\n'} ensures c !in long {
        CleanEntry(key', value', c);
        NotInParts(c, value, Entry(key', value'));
      }
    }
    assert Printed(key, value) + Printed(key', value') == Entry(key, long) + "\n" + "";
    LoadEntry(map[], key, long, "");
  }

  // ---------------------------------------------------------------------------------------------------------------
  // The buffer, cut in place

  /** The C string at `at` is `s`. */
  ghost predicate Holds(buf: array<char>, at: nat, s: string)
    reads buf
  {
    && at + |s| < buf.Length && buf[at + |s|] == '\0'
    && forall k :: at <= k < at + |s| ==> buf[k] == s[k - at] && buf[k] != '\0'
  }

  method StrLen(buf: array<char>, at: nat, ghost s: string) returns (n: nat)
    requires Holds(buf, at, s)
    ensures n == |s|
  {
    var k := at;
    while buf[k] != '\0'
      invariant at <= k <= at + |s|
      decreases at + |s| - k
    {
      k := k + 1;
    }
    n := k - at;
  }

  /** strchr, as an offset; the length of the string for a null result. */
  method StrChr(buf: array<char>, c: char, ghost s: string) returns (n: nat)
    requires Holds(buf, 0, s) && c != '\0'
    ensures n == IndexOf(s, c) && (n < |s| ==> s[n] == c)
  {
    n := 0;
    while buf[n] != '\0' && buf[n] != c
      invariant n <= |s| && forall j :: 0 <= j < n ==> buf[j] != c
      decreases |s| - n
    {
      n := n + 1;
    }
    assert forall j :: 0 <= j < n ==> s[j] == buf[j];
    IndexIs(s, c, n);
  }

  method CopyOut(buf: array<char>, at: nat, ghost s: string) returns (t: string)
    requires Holds(buf, at, s)
    ensures t == s
  {
    t := "";
    var k := at;
    while buf[k] != '\0'
      invariant at <= k <= at + |s| && t == s[..k - at]
      decreases at + |s| - k
    {
      t := t + [buf[k]];
      k := k + 1;
    }
  }

  /** The characters of `was` from `start` to `end` are the trimmed `s`, which `was` holds at `name`. */
  lemma TrimIs(was: string, name: nat, start: nat, end: nat, s: string)
    requires name <= start < end <= name + |s| <= |was| && !IsBlank(was[start]) && !IsBlank(was[end - 1])
    requires was[name..name + |s|] == s
    requires forall k :: name <= k < start || end <= k < name + |s| ==> IsBlank(was[k])
    ensures Trim(s) == was[start..end]
  {
    assert forall j :: 0 <= j < |s| ==> s[j] == was[name + j];
    FirstIs(s, start - name);
    EndIs(s, end - name);
  }

  /** The forward scan of _TrimSpace, over blanks only. */
  method SkipBlanks(buf: array<char>, name: nat, ghost s: string) returns (start: nat)
    requires Holds(buf, name, s)
    ensures name <= start <= name + |s|
    ensures !IsBlank(buf[start]) && forall k :: name <= k < start ==> IsBlank(buf[k])
  {
    start := name;
    while IsBlank(buf[start])
      invariant name <= start <= name + |s|
      invariant forall k :: name <= k < start ==> IsBlank(buf[k])
      decreases name + |s| - start
    {
      start := start + 1;
    }
  }

  /** The backward scan of _TrimSpace: it stops at the latest at `start`, which is not blank. */
  method CutTail(buf: array<char>, start: nat, last: nat) returns (end: nat)
    requires start <= last < buf.Length && !IsBlank(buf[start])
    modifies buf
    ensures start <= end <= last && !IsBlank(buf[end]) && (end < last ==> buf[end + 1] == '\0')
    ensures forall k :: end < k <= last ==> IsBlank(old(buf[k]))
    ensures forall k :: 0 <= k < buf.Length && !(end < k <= last) ==> buf[k] == old(buf[k])
  {
    end := last;
    while IsBlank(buf[end])
      invariant start <= end <= last && (end < last ==> buf[end + 1] == '\0')
      invariant forall k :: end < k <= last ==> IsBlank(old(buf[k]))
      invariant forall k :: 0 <= k < buf.Length && !(end < k <= last) ==> buf[k] == old(buf[k])
      decreases end
    {
      buf[end] := '\0';
      end := end - 1;
    }
  }

  /** The same on a C string that ends behind `last`: what is left of it is another one. */
  method CutString(buf: array<char>, start: nat, last: nat) returns (end: nat)
    requires start <= last && last + 1 < buf.Length && !IsBlank(buf[start])
    requires Holds(buf, start, buf[start..last + 1])
    modifies buf
    ensures start <= end <= last && !IsBlank(old(buf[end])) && Holds(buf, start, old(buf[start..end + 1]))
    ensures forall k :: end < k <= last ==> IsBlank(old(buf[k]))
    ensures forall k :: 0 <= k < buf.Length && !(start <= k <= last) ==> buf[k] == old(buf[k])
  {
    end := CutTail(buf, start, last);
  }

  method CutBlanks(buf: array<char>, name: nat, start: nat, ghost s: string)
    requires Holds(buf, name, s) && name <= start < name + |s|
    requires !IsBlank(buf[start]) && forall k :: name <= k < start ==> IsBlank(buf[k])
    modifies buf
    ensures Holds(buf, start, Trim(s)) && Trim(s) != "" && start + |Trim(s)| <= name + |s|
    ensures forall k :: 0 <= k < buf.Length && !(name <= k < name + |s|) ==> buf[k] == old(buf[k])
  {
    ghost var was := buf[..];
    assert was[name..name + |s|] == s;
    var len := StrLen(buf, name, s);
    var end := CutString(buf, start, name + len - 1);
    TrimIs(was, name, start, end + 1, s);
    assert was[start..end + 1] == old(buf[start..end + 1]);
  }

  /** _TrimSpace. */
  method TrimSpace(buf: array<char>, name: nat, ghost s: string) returns (r: Option<nat>)
    requires Holds(buf, name, s)
    modifies buf
    ensures r.None? <==> Trim(s) == ""
    ensures r.Some? ==> name <= r.value && r.value + |Trim(s)| <= name + |s| && Holds(buf, r.value, Trim(s))
    ensures forall k :: 0 <= k < buf.Length && !(name <= k < name + |s|) ==> buf[k] == old(buf[k])
  {
    var start := SkipBlanks(buf, name, s);
    if buf[start] == '\0' {
      assert forall j :: 0 <= j < |s| ==> s[j] == buf[name + j];
      FirstIs(s, |s|);
      return None;
    }
    CutBlanks(buf, name, start, s);
    r := Some(start);
  }

  class ConfigFileReader {
    var configMap: map<string, string>

    /** A reader that has loaded nothing yet. */
    constructor ()
      ensures configMap == map[]
    {
      configMap := map[];
    }

    /** _ParseLine on the C string at the front of the buffer. */
    method ParseLine(buf: array<char>, ghost s: string)
      requires Holds(buf, 0, s)
      modifies this, buf
      ensures configMap == Insert(old(configMap), Parse(s))
    {
      var p := StrChr(buf, '=', s);
      if buf[p] == '\0' {
        return;
      }
      buf[p] := '\0';
      ghost var left, right := s[..p], s[p + 1..];
      assert Holds(buf, 0, left);
      assert Holds(buf, p + 1, right);
      var key := TrimSpace(buf, 0, left);
      assert Holds(buf, p + 1, right);
      var value := TrimSpace(buf, p + 1, right);
      if key.Some? && value.Some? {
        assert Holds(buf, key.value, Trim(left));
        var k := CopyOut(buf, key.value, Trim(left));
        var v := CopyOut(buf, value.value, Trim(right));
        if k !in configMap {
          configMap := configMap[k := v];
        }
      }
    }

    /** fgets, on what is left of the file. */
    method Fgets(rest: string, buf: array<char>) returns (n: nat)
      requires rest != "" && buf.Length == LINE_SIZE
      modifies buf
      ensures n == ChunkLength(rest)
      ensures n < LINE_SIZE && buf[n] == '\0' && forall j :: 0 <= j < n ==> buf[j] == rest[j]
    {
      n := 0;
      while n < |rest| && n < LINE_SIZE - 1 && (n == 0 || rest[n - 1] != '\n')
        invariant n <= |rest| && n < LINE_SIZE
        invariant forall j :: 0 <= j < n ==> buf[j] == rest[j]
        invariant forall j :: 0 <= j < n - 1 ==> rest[j] != '\n'
        decreases |rest| - n
      {
        buf[n] := rest[n];
        n := n + 1;
      }
      buf[n] := '\0';
      IndexFound(rest, '\n');
    }

    /** One round of the reading loop after fgets. */
    method TakeLine(buf: array<char>, ghost chunk: string)
      requires chunk != "" && chunk[0] != '\0' && |chunk| < buf.Length && buf[|chunk|] == '\0'
      requires forall j :: 0 <= j < |chunk| ==> buf[j] == chunk[j]
      modifies this, buf
      ensures configMap == Insert(old(configMap), Parse(Line(chunk)))
    {
      ghost var s := Before(chunk, '\0');
      IndexFound(chunk, '\0');
      var len := StrLen(buf, 0, s);
      if buf[len - 1] == '\n' {
        buf[len - 1] := '\0';
      }
      ghost var t := Chop(s);
      assert Holds(buf, 0, t);
      var ch := StrChr(buf, '#', t);
      if buf[ch] != '\0' {
        buf[ch] := '\0';
      }
      assert Holds(buf, 0, Line(chunk));
      if buf[0] != '\0' {
        ParseLine(buf, Line(chunk));
      }
    }

    /** _LoadFile on a file that could be opened. */
    method LoadFile(text: string)
      requires Readable(text)
      modifies this
      ensures configMap == Load(old(configMap), text)
    {
      var buf := new char[LINE_SIZE];
      var rest := text;
      while rest != ""
        invariant Readable(rest) && Load(configMap, rest) == Load(old(configMap), text)
        decreases |rest|
      {
        var n := Fgets(rest, buf);
        TakeLine(buf, rest[..n]);
        rest := rest[n..];
      }
    }

    /** _WriteFIle; `order` is the map's own order of iteration. */
    method WriteFile(order: seq<string>) returns (text: string)
      requires Enumerates(order, configMap.Keys)
      ensures text == Print(configMap, order)
    {
      text := "";
      var rest := order;
      while rest != []
        invariant forall k :: k in rest ==> k in configMap
        invariant text + Print(configMap, rest) == Print(configMap, order)
        decreases |rest|
      {
        PrintStep(configMap, rest, text);
        text := text + Printed(rest[0], configMap[rest[0]]);
        rest := rest[1..];
      }
    }
  }

  lemma PrintStep(m: map<string, string>, rest: seq<string>, text: string)
    requires rest != [] && forall k :: k in rest ==> k in m
    ensures text + Print(m, rest) == text + Printed(rest[0], m[rest[0]]) + Print(m, rest[1..])
  {
    Assoc(text, Printed(rest[0], m[rest[0]]), Print(m, rest[1..]));
  }
}
