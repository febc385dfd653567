/** The INI settings file of src/config.c: the loader, a line-by-line parser in the
    style of `sscanf`, and the printer.

    The file is given as its lines, each as `fgets` returns it (with its newline), or
    `None` when it cannot be opened. Integers are unbounded: `%d` on a value outside
    the range of `int` is undefined in C and is read here as the mathematical value. */
module Config {
  import opened Common

  /** GameConfig (include/config.h). */
  datatype GameConfig = GameConfig(
    name: string,
    winW: int,
    winH: int,
    fullscreen: bool,
    vsync: bool,
    fps: int,
    masterVolume: int,
    musicVolume: int,
    sfxVolume: int,
    audioFrequency: int,
    showFps: bool,
    debugMode: bool)

  /** `GameConfig config = {0}`. */
  const ZeroConfig := GameConfig("", 0, 0, false, false, 0, 0, 0, 0, 0, false, false)

  /** FPS and FRAME_TIME_MS (include/config.h): 1000 / 60 under integer division. */
  const Fps := 60
  const FrameTimeMs := 1000 / Fps

  // ---------------------------------------------------------------------------
  // sscanf conversions
  // ---------------------------------------------------------------------------

  /** isspace in the C locale, which a space in a format and `%d`/`%s` skip. */
  predicate IsSpace(c: char) {
    c == ' ' || c == '\t' || c == '\n' || c == '\U{000B}' || c == '\U{000C}' || c == '\r'
  }

  /** What is left after leading white space. */
  function SkipSpaces(s: seq<char>): (r: seq<char>)
    ensures r != [] ==> !IsSpace(r[0])
  {
    if s != [] && IsSpace(s[0]) then SkipSpaces(s[1..]) else s
  }

  /** The character classes the conversions read runs of. */
  datatype CharClass = Digits | NonSpace | NotBracket

  predicate InClass(c: char, cl: CharClass) {
    match cl
    case Digits => IsDigit(c)
    case NonSpace => !IsSpace(c)
    case NotBracket => c != ']'
  }

  /** The longest prefix of `s` whose characters are all in class `cl`. */
  function TakeWhile(s: seq<char>, cl: CharClass): (r: seq<char>)
    ensures forall i :: 0 <= i < |r| ==> InClass(r[i], cl)
  {
    if s != [] && InClass(s[0], cl) then [s[0]] + TakeWhile(s[1..], cl) else []
  }

  /** `%d`: white space, an optional sign, then at least one digit. */
  function ScanInt(s: seq<char>): (r: Option<int>)
    ensures SkipSpaces(s) == [] ==> r.None?
    ensures r.Some? && r.value < 0 ==> SkipSpaces(s)[0] == '-'
    ensures SkipSpaces(s) != [] && IsDigit(SkipSpaces(s)[0]) ==> r.Some? && r.value >= 0
    ensures SkipSpaces(s) != [] && SkipSpaces(s)[0] !in "+-" && !IsDigit(SkipSpaces(s)[0]) ==> r.None?
  {
    var t := SkipSpaces(s);
    var neg := t != [] && t[0] == '-';
    var body := if t != [] && (t[0] == '-' || t[0] == '+') then t[1..] else t;
    var ds := TakeWhile(body, Digits);
    if ds == [] then None
    else
      var v: int := Decimal(ds);
      Some(if neg then -v else v)
  }

  /** `%s`: white space, then the longest run of at least one non-space character. */
  function ScanToken(s: seq<char>): (r: Option<string>)
    ensures r.Some? ==> r.value != [] && forall i :: 0 <= i < |r.value| ==> !IsSpace(r.value[i])
  {
    var tok := TakeWhile(SkipSpaces(s), NonSpace);
    if tok == [] then None else Some(tok)
  }

  /** `sscanf(line, "<key>%d", &v) == 1`: the key is matched literally from the first
      column, then an integer is read. */
  function IntAfter(line: string, key: string): Option<int> {
    if key <= line then ScanInt(line[|key|..]) else None
  }

  function TokenAfter(line: string, key: string): Option<string> {
    if key <= line then ScanToken(line[|key|..]) else None
  }

  /** `sscanf(line, " [%[^]]]\n", title) == 1`: white space, `[`, and at least one
      character other than `]`; the title is the longest such run (what follows it
      does not affect the count of conversions). */
  function Header(line: string): (r: Option<string>)
    ensures r.Some? ==> r.value != [] && ']' !in r.value
  {
    var t := SkipSpaces(line);
    if t == [] || t[0] != '[' then None
    else
      var title := TakeWhile(t[1..], NotBracket);
      if title == [] then None else Some(title)
  }

  // ---------------------------------------------------------------------------
  // The loader
  // ---------------------------------------------------------------------------

  function SetInt(v: Option<int>, cur: int): int {
    if v.Some? then v.value else cur
  }

  function SetBool(v: Option<int>, cur: bool): bool {
    if v.Some? then v.value != 0 else cur
  }

  /** A key line of the [Video] section. */
  function VideoLine(c: GameConfig, line: string): GameConfig {
    var name := TokenAfter(line, "window_name=");
    c.(name := if name.Some? then name.value else c.name,
       winW := SetInt(IntAfter(line, "width="), c.winW),
       winH := SetInt(IntAfter(line, "height="), c.winH),
       fullscreen := SetBool(IntAfter(line, "fullscreen="), c.fullscreen),
       vsync := SetBool(IntAfter(line, "vsync="), c.vsync),
       fps := SetInt(IntAfter(line, "fps="), c.fps))
  }

  /** A key line of the [Audio] section. */
  function AudioLine(c: GameConfig, line: string): GameConfig {
    c.(masterVolume := SetInt(IntAfter(line, "master_volume="), c.masterVolume),
       musicVolume := SetInt(IntAfter(line, "music_volume="), c.musicVolume),
       sfxVolume := SetInt(IntAfter(line, "sfx_volume="), c.sfxVolume),
       audioFrequency := SetInt(IntAfter(line, "audio_frequency="), c.audioFrequency))
  }

  /** A key line of the [Game] section. */
  function GameLine(c: GameConfig, line: string): GameConfig {
    c.(showFps := SetBool(IntAfter(line, "show_fps="), c.showFps))
  }

  /** A key line of the [Debug] section. */
  function DebugLine(c: GameConfig, line: string): GameConfig {
    c.(debugMode := SetBool(IntAfter(line, "debug_mode="), c.debugMode))
  }

  /** A key line under the section `title` (`None` before the first header). */
  function KeyLine(c: GameConfig, title: Option<string>, line: string): GameConfig {
    if title == Some("Video") then VideoLine(c, line)
    else if title == Some("Audio") then AudioLine(c, line)
    else if title == Some("Game") then GameLine(c, line)
    else if title == Some("Debug") then DebugLine(c, line)
    else c
  }

  /** A line whose first character is `#` or a newline. */
  predicate Skipped(line: string) {
    line != [] && (line[0] == '#' || line[0] == '\n')
  }

  /** One pass of the loader's loop: skipped lines change nothing, a header changes the
      section, any other line is a key line of the current section. */
  function LineApplied(c: GameConfig, title: Option<string>, line: string): (r: (GameConfig, Option<string>))
    ensures Skipped(line) ==> r == (c, title)
    ensures !Skipped(line) && Header(line).Some? ==> r == (c, Header(line))
    ensures r.1 == title || r.1 == Header(line)
    ensures r.1 != title ==> r.0 == c
  {
    if Skipped(line) then (c, title)
    else
      var h := Header(line);
      if h.Some? then (c, h) else (KeyLine(c, title, line), title)
  }

  /** The configuration and the section after the lines, in order. */
  function Parsed(lines: seq<string>, c: GameConfig, title: Option<string>): (r: (GameConfig, Option<string>))
    ensures lines == [] ==> r == (c, title)
    ensures r.1 == title || (r.1.Some? && r.1.value != [] && ']' !in r.1.value)
    decreases |lines|
  {
    if lines == [] then (c, title)
    else
      var next := LineApplied(c, title, lines[0]);
      Parsed(lines[1..], next.0, next.1)
  }

  /** loadConfig: returns whether the file could be opened, and the configuration as
      the file leaves it; a file that cannot be opened leaves it as it was. */
  method LoadConfig(cfg: GameConfig, file: Option<seq<string>>) returns (ok: bool, loaded: GameConfig)
    ensures ok <==> file.Some?
    ensures file.None? ==> loaded == cfg
    ensures file.Some? ==> loaded == Parsed(file.value, cfg, None).0
  {
    if file.None? {
      return false, cfg;
    }
    var lines := file.value;
    var title: Option<string> := None;
    loaded := cfg;
    var i := 0;
    while i < |lines|
      invariant 0 <= i <= |lines|
      invariant Parsed(lines[i..], loaded, title) == Parsed(lines, cfg, None)
    {
      var line := lines[i];
      assert lines[i..][1..] == lines[i + 1..];
      i := i + 1;
      if Skipped(line) {
        continue;
      }
      var h := Header(line);
      if h.Some? {
        title := h;
        continue;
      }
      loaded := KeyLine(loaded, title, line);
    }
    return true, loaded;
  }

  // ---------------------------------------------------------------------------
  // Properties of the loader
  // ---------------------------------------------------------------------------

  /** The loader over a concatenation is the loader over the second part started from
      where the first part leaves off. */
  lemma {:induction false} ParsedAppend(a: seq<string>, b: seq<string>, c: GameConfig, title: Option<string>)
    ensures var m := Parsed(a, c, title); Parsed(a + b, c, title) == Parsed(b, m.0, m.1)
    decreases |a|
  {
    if a == [] {
      assert a + b == b;
    } else {
      assert (a + b)[0] == a[0] && (a + b)[1..] == a[1..] + b;
      var next := LineApplied(c, title, a[0]);
      ParsedAppend(a[1..], b, next.0, next.1);
    }
  }

  /** Comment and blank lines change neither the configuration nor the section. */
  lemma SkippedLinesIgnored(c: GameConfig, title: Option<string>, line: string)
    requires line != [] && (line[0] == '#' || line[0] == '\n')
    ensures LineApplied(c, title, line) == (c, title)
  {
  }

  /** The start of a header line: white space, `[`, a title without `]`, then `]` or the
      end of the line, is read as that title. */
  lemma HeaderOf(pre: string, t: string, post: string)
    requires forall i :: 0 <= i < |pre| ==> pre[i] == ' '
    requires t != [] && ']' !in t
    requires post == [] || post[0] == ']'
    ensures Header(pre + "[" + t + post) == Some(t)
  {
    var rest := ['['] + (t + post);
    assert pre + "[" + t + post == pre + rest;
    SkipSpacesOver(pre, rest);
    assert rest[1..] == t + post;
    assert forall i :: 0 <= i < |t| ==> InClass(t[i], NotBracket);
    TakeWhileStops(t, post, NotBracket);
  }

  /** A line that starts with spaces and then `[` is not skipped. */
  lemma BracketNotSkipped(pre: string, rest: string)
    requires forall i :: 0 <= i < |pre| ==> pre[i] == ' '
    requires rest != [] && rest[0] == '['
    ensures !Skipped(pre + rest)
  {
    if pre != [] { assert (pre + rest)[0] == pre[0]; } else { assert (pre + rest)[0] == rest[0]; }
  }

  /** A header line sets the section to its title and changes no field. */
  lemma HeaderSetsSection(c: GameConfig, title: Option<string>, pre: string, t: string, post: string)
    requires forall i :: 0 <= i < |pre| ==> pre[i] == ' '
    requires t != [] && ']' !in t
    requires post == [] || post[0] == ']'
    ensures LineApplied(c, title, pre + "[" + t + post) == (c, Some(t))
  {
    HeaderOf(pre, t, post);
    assert pre + "[" + t + post == pre + ("[" + t + post);
    BracketNotSkipped(pre, "[" + t + post);
  }

  lemma {:induction false} SkipSpacesOver(pre: seq<char>, s: seq<char>)
    requires forall i :: 0 <= i < |pre| ==> IsSpace(pre[i])
    requires s != [] && !IsSpace(s[0])
    ensures SkipSpaces(pre + s) == s
  {
    if pre != [] {
      assert (pre + s)[1..] == pre[1..] + s;
      SkipSpacesOver(pre[1..], s);
    } else {
      assert pre + s == s;
    }
  }

  lemma {:induction false} TakeWhileStops(t: seq<char>, post: seq<char>, cl: CharClass)
    requires forall i :: 0 <= i < |t| ==> InClass(t[i], cl)
    requires post == [] || !InClass(post[0], cl)
    ensures TakeWhile(t + post, cl) == t
  {
    if t != [] {
      assert (t + post)[1..] == t[1..] + post;
      TakeWhileStops(t[1..], post, cl);
    } else {
      assert t + post == post;
    }
  }

  /** Outside the four known sections key lines change nothing; inside one, a key line
      changes only that section's fields. */
  lemma KeyLineFrame(c: GameConfig, title: Option<string>, line: string)
    ensures var r := KeyLine(c, title, line);
      && (title !in {Some("Video"), Some("Audio"), Some("Game"), Some("Debug")} ==> r == c)
      && (title == Some("Video") ==>
            r == c.(name := r.name, winW := r.winW, winH := r.winH, fullscreen := r.fullscreen,
                    vsync := r.vsync, fps := r.fps))
      && (title == Some("Audio") ==>
            r == c.(masterVolume := r.masterVolume, musicVolume := r.musicVolume,
                    sfxVolume := r.sfxVolume, audioFrequency := r.audioFrequency))
      && (title == Some("Game") ==> r == c.(showFps := r.showFps))
      && (title == Some("Debug") ==> r == c.(debugMode := r.debugMode))
  {
  }

  // --- which key a line starts with ---------------------------------------------

  /** A key whose only `=` is its last character, as every key of the loader is. */
  predicate EndsAtEquals(k: string) {
    k != [] && k[|k| - 1] == '=' && forall i :: 0 <= i < |k| - 1 ==> k[i] != '='
  }

  /** The start of a line up to and including its first `=` (all of it if it has none). */
  function UpToEquals(line: string): string {
    if line == [] then [] else if line[0] == '=' then "=" else [line[0]] + UpToEquals(line[1..])
  }

  /** A key that ends at its only `=` begins a line exactly when it is the line's start up
      to its first `=`. */
  lemma {:induction false} KeyPrefix(k: string, line: string)
    requires EndsAtEquals(k)
    ensures k <= line <==> k == UpToEquals(line)
  {
    if |k| == 1 {
      if line != [] && line[0] != '=' {
        assert UpToEquals(line)[0] == line[0];
      }
    } else {
      var k' := k[1..];
      assert EndsAtEquals(k') by {
        forall i | 0 <= i < |k'| - 1 ensures k'[i] != '=' { assert k'[i] == k[i + 1]; }
      }
      assert k == [k[0]] + k';
      if line != [] {
        KeyPrefix(k', line[1..]);
        assert k <= line <==> line[0] == k[0] && k' <= line[1..];
      }
    }
  }

  /** Of the keys that end at their only `=`, the only one `key + v` begins with is `key`. */
  lemma StartsWithOnly(k: string, key: string, v: string)
    requires EndsAtEquals(k) && EndsAtEquals(key)
    ensures k <= key + v <==> k == key
  {
    KeyPrefix(k, key + v);
    KeyPrefix(key, key + v);
  }

  /** The keys the loader reads an integer from. */
  datatype IntKey = Width | Height | Fullscreen | Vsync | FpsKey
                  | MasterVolume | MusicVolume | SfxVolume | AudioFrequency | ShowFps | DebugMode

  /** The key as it is written in the file. */
  function KeyText(k: IntKey): string {
    match k
    case Width => "width="
    case Height => "height="
    case Fullscreen => "fullscreen="
    case Vsync => "vsync="
    case FpsKey => "fps="
    case MasterVolume => "master_volume="
    case MusicVolume => "music_volume="
    case SfxVolume => "sfx_volume="
    case AudioFrequency => "audio_frequency="
    case ShowFps => "show_fps="
    case DebugMode => "debug_mode="
  }

  /** The section the loader reads the key under. */
  function SectionOf(k: IntKey): string {
    match k
    case Width | Height | Fullscreen | Vsync | FpsKey => "Video"
    case MasterVolume | MusicVolume | SfxVolume | AudioFrequency => "Audio"
    case ShowFps => "Game"
    case DebugMode => "Debug"
  }

  /** The field the key sets, set from the integer `v` (a flag to `v != 0`). */
  function Assigned(c: GameConfig, k: IntKey, v: int): GameConfig {
    match k
    case Width => c.(winW := v)
    case Height => c.(winH := v)
    case Fullscreen => c.(fullscreen := v != 0)
    case Vsync => c.(vsync := v != 0)
    case FpsKey => c.(fps := v)
    case MasterVolume => c.(masterVolume := v)
    case MusicVolume => c.(musicVolume := v)
    case SfxVolume => c.(sfxVolume := v)
    case AudioFrequency => c.(audioFrequency := v)
    case ShowFps => c.(showFps := v != 0)
    case DebugMode => c.(debugMode := v != 0)
  }

  lemma VideoKeysEndAtEquals()
    ensures EndsAtEquals("window_name=") && EndsAtEquals("name=")
    ensures EndsAtEquals("width=") && EndsAtEquals("height=") && EndsAtEquals("fullscreen=")
    ensures EndsAtEquals("vsync=") && EndsAtEquals("fps=")
  {
  }

  lemma AudioKeysEndAtEquals()
    ensures EndsAtEquals("master_volume=") && EndsAtEquals("music_volume=")
    ensures EndsAtEquals("sfx_volume=") && EndsAtEquals("audio_frequency=")
  {
  }

  lemma FlagKeysEndAtEquals()
    ensures EndsAtEquals("show_fps=") && EndsAtEquals("debug_mode=")
  {
  }

  lemma KeysEndAtEquals(k: IntKey)
    ensures EndsAtEquals(KeyText(k))
  {
    VideoKeysEndAtEquals();
    AudioKeysEndAtEquals();
    FlagKeysEndAtEquals();
  }

  /** For a line `key + v`, which of the [Video] keys begin it. */
  lemma VideoKeysOf(key: string, v: string)
    requires EndsAtEquals(key)
    ensures && ("window_name=" <= key + v <==> key == "window_name=")
      && ("width=" <= key + v <==> key == "width=")
      && ("height=" <= key + v <==> key == "height=")
      && ("fullscreen=" <= key + v <==> key == "fullscreen=")
      && ("vsync=" <= key + v <==> key == "vsync=")
      && ("fps=" <= key + v <==> key == "fps=")
  {
    VideoKeysEndAtEquals();
    StartsWithOnly("window_name=", key, v);
    StartsWithOnly("width=", key, v);
    StartsWithOnly("height=", key, v);
    StartsWithOnly("fullscreen=", key, v);
    StartsWithOnly("vsync=", key, v);
    StartsWithOnly("fps=", key, v);
  }

  /** For a line `key + v`, which of the [Audio] keys begin it. */
  lemma AudioKeysOf(key: string, v: string)
    requires EndsAtEquals(key)
    ensures && ("master_volume=" <= key + v <==> key == "master_volume=")
      && ("music_volume=" <= key + v <==> key == "music_volume=")
      && ("sfx_volume=" <= key + v <==> key == "sfx_volume=")
      && ("audio_frequency=" <= key + v <==> key == "audio_frequency=")
  {
    AudioKeysEndAtEquals();
    StartsWithOnly("master_volume=", key, v);
    StartsWithOnly("music_volume=", key, v);
    StartsWithOnly("sfx_volume=", key, v);
    StartsWithOnly("audio_frequency=", key, v);
  }

  lemma VideoIntLine(c: GameConfig, k: IntKey, v: string)
    requires SectionOf(k) == "Video"
    ensures VideoLine(c, KeyText(k) + v)
      == (if ScanInt(v).Some? then Assigned(c, k, ScanInt(v).value) else c)
  {
    KeysEndAtEquals(k);
    VideoKeysOf(KeyText(k), v);
    assert (KeyText(k) + v)[|KeyText(k)|..] == v;
  }

  lemma AudioIntLine(c: GameConfig, k: IntKey, v: string)
    requires SectionOf(k) == "Audio"
    ensures AudioLine(c, KeyText(k) + v)
      == (if ScanInt(v).Some? then Assigned(c, k, ScanInt(v).value) else c)
  {
    KeysEndAtEquals(k);
    AudioKeysOf(KeyText(k), v);
    assert (KeyText(k) + v)[|KeyText(k)|..] == v;
  }

  /** A line `key + value` under the section of the integer key `key`: a value that is
      not an integer leaves everything as it was, one that is sets that key's field, a
      flag to true exactly when the integer is not zero. */
  lemma IntKeyLine(c: GameConfig, k: IntKey, value: string)
    ensures KeyLine(c, Some(SectionOf(k)), KeyText(k) + value)
      == (if ScanInt(value).Some? then Assigned(c, k, ScanInt(value).value) else c)
  {
    var line := KeyText(k) + value;
    if SectionOf(k) == "Video" {
      VideoIntLine(c, k, value);
    } else if SectionOf(k) == "Audio" {
      AudioIntLine(c, k, value);
    } else {
      assert line[|KeyText(k)|..] == value;
    }
  }

  /** Of two lines for the same key, the later one wins when its value is an integer. */
  lemma LaterKeyWins(c: GameConfig, k: IntKey, v1: string, v2: string)
    requires ScanInt(v2).Some?
    ensures var title := Some(SectionOf(k));
      KeyLine(KeyLine(c, title, KeyText(k) + v1), title, KeyText(k) + v2) == KeyLine(c, title, KeyText(k) + v2)
  {
    IntKeyLine(c, k, v1);
    IntKeyLine(KeyLine(c, Some(SectionOf(k)), KeyText(k) + v1), k, v2);
    IntKeyLine(c, k, v2);
  }

  /** window_name= takes the first token after the `=`; a value with no token leaves
      the name as it was. */
  lemma WindowNameLine(c: GameConfig, v: string)
    ensures KeyLine(c, Some("Video"), "window_name=" + v)
      == c.(name := if ScanToken(v).Some? then ScanToken(v).value else c.name)
  {
    VideoKeysEndAtEquals();
    VideoKeysOf("window_name=", v);
    assert ("window_name=" + v)[|"window_name="|..] == v;
  }

  /** A line that begins with none of the [Video] keys changes nothing under [Video]. */
  lemma UnknownVideoKey(c: GameConfig, line: string)
    requires !("window_name=" <= line) && !("width=" <= line) && !("height=" <= line)
    requires !("fullscreen=" <= line) && !("vsync=" <= line) && !("fps=" <= line)
    ensures KeyLine(c, Some("Video"), line) == c
  {
  }

  /** A line that begins with none of the [Audio] keys changes nothing under [Audio]. */
  lemma UnknownAudioKey(c: GameConfig, line: string)
    requires !("master_volume=" <= line) && !("music_volume=" <= line)
    requires !("sfx_volume=" <= line) && !("audio_frequency=" <= line)
    ensures KeyLine(c, Some("Audio"), line) == c
  {
  }

  // ---------------------------------------------------------------------------
  // The printer
  // ---------------------------------------------------------------------------

  function DigitChar(d: int): (c: char)
    requires 0 <= d <= 9
    ensures IsDigit(c)
  {
    ('0' as int + d) as char
  }

  /** The decimal digits of a natural number. */
  function NatToDec(n: nat): (s: string)
    ensures s != [] && AllDigits(s)
  {
    if n < 10 then [DigitChar(n)] else NatToDec(n / 10) + [DigitChar(n % 10)]
  }

  /** `%d` of printf. */
  function IntToDec(n: int): (s: string)
    ensures s != []
  {
    if n < 0 then "-" + NatToDec(-n) else NatToDec(n)
  }

  /** The field behind a key, as `%d` receives it (a bool as 1 or 0). */
  function Field(c: GameConfig, k: IntKey): int {
    match k
    case Width => c.winW
    case Height => c.winH
    case Fullscreen => if c.fullscreen then 1 else 0
    case Vsync => if c.vsync then 1 else 0
    case FpsKey => c.fps
    case MasterVolume => c.masterVolume
    case MusicVolume => c.musicVolume
    case SfxVolume => c.sfxVolume
    case AudioFrequency => c.audioFrequency
    case ShowFps => if c.showFps then 1 else 0
    case DebugMode => if c.debugMode then 1 else 0
  }

  /** One run of printf calls of printConfig: the `[title]` header, the `name=` line
      when `named`, one `key=%d` line per key, and the empty line that the last printf
      of the run adds when `blank`. */
  datatype Group = Group(title: string, named: bool, keys: seq<IntKey>, blank: bool)

  const VideoGroup := Group("Video", true, [Width, Height, Fullscreen, Vsync, FpsKey], true)
  const AudioGroup := Group("Audio", false, [MasterVolume, MusicVolume, SfxVolume, AudioFrequency], true)
  const GameGroup := Group("Game", false, [ShowFps], true)
  const DebugGroup := Group("Debug", false, [DebugMode], false)

  /** The `key=%d` lines for the keys, in order. */
  function KeyLines(c: GameConfig, ks: seq<IntKey>): (lines: seq<string>)
    ensures |lines| == |ks|
    ensures forall i :: 0 <= i < |ks| ==> lines[i] == KeyText(ks[i]) + IntToDec(Field(c, ks[i])) + "\n"
  {
    seq(|ks|, i requires 0 <= i < |ks| => KeyText(ks[i]) + IntToDec(Field(c, ks[i])) + "\n")
  }

  function GroupLines(c: GameConfig, g: Group): (lines: seq<string>)
    ensures |lines| == 1 + (if g.named then 1 else 0) + |g.keys| + (if g.blank then 1 else 0)
    ensures lines[0] == "[" + g.title + "]\n"
  {
    ["[" + g.title + "]\n"] + GroupBody(c, g)
  }

  /** What a printf run writes after its header. */
  function GroupBody(c: GameConfig, g: Group): (lines: seq<string>)
    ensures |lines| == (if g.named then 1 else 0) + |g.keys| + (if g.blank then 1 else 0)
  {
    (if g.named then ["name=" + c.name + "\n"] else [])
      + (KeyLines(c, g.keys) + (if g.blank then ["\n"] else []))
  }

  /** printConfig: the lines it writes to standard output, each with its newline; a
      missing configuration writes nothing there. */
  function PrintConfig(cfg: Option<GameConfig>): (lines: seq<string>)
    ensures cfg.None? ==> lines == []
    ensures cfg.Some? ==> |lines| == 19
    ensures cfg.Some? ==>
      lines[0] == "[Video]\n" && lines[8] == "[Audio]\n" && lines[14] == "[Game]\n" && lines[17] == "[Debug]\n"
    ensures cfg.Some? ==> lines[7] == "\n" && lines[13] == "\n" && lines[16] == "\n"
  {
    match cfg
    case None => []
    case Some(c) =>
      GroupLines(c, VideoGroup) + GroupLines(c, AudioGroup) + GroupLines(c, GameGroup) + GroupLines(c, DebugGroup)
  }

  // ---------------------------------------------------------------------------
  // Printing, then loading
  // ---------------------------------------------------------------------------

  lemma {:induction false} DecimalOfNatToDec(n: nat)
    ensures Decimal(NatToDec(n)) == n
  {
    if n >= 10 {
      var s := NatToDec(n);
      assert s[..|s| - 1] == NatToDec(n / 10);
      DecimalOfNatToDec(n / 10);
    }
  }

  /** `%d` reads an optional minus sign and the digits after it, up to the first
      character that is not a digit. */
  lemma ScanDigits(sign: string, ds: string, post: string)
    requires sign == "" || sign == "-"
    requires ds != [] && AllDigits(ds) && (post == [] || !IsDigit(post[0]))
    ensures ScanInt(sign + ds + post) == Some(if sign == "-" then -(Decimal(ds) as int) else Decimal(ds))
  {
    var s := sign + ds + post;
    if sign == "-" {
      assert s[0] == '-' && s[1..] == ds + post;
    } else {
      assert s == ds + post && s[0] == ds[0];
    }
    assert SkipSpaces(s) == s;
    assert forall i :: 0 <= i < |ds| ==> InClass(ds[i], Digits);
    TakeWhileStops(ds, post, Digits);
  }

  /** `%d` reads back what `%d` printed, up to the newline. */
  lemma ScanIntOfIntToDec(n: int)
    ensures ScanInt(IntToDec(n) + "\n") == Some(n)
  {
    var m: nat := if n < 0 then -n else n;
    var sign := if n < 0 then "-" else "";
    var ds := NatToDec(m);
    assert IntToDec(n) == sign + ds;
    ScanDigits(sign, ds, "\n");
    DecimalOfNatToDec(m);
  }

  /** A line starting with a lower-case letter is neither skipped nor a header. */
  lemma KeyLineApplied(c: GameConfig, title: Option<string>, line: string)
    requires line != [] && 'a' <= line[0] <= 'z'
    ensures LineApplied(c, title, line) == (KeyLine(c, title, line), title)
  {
    assert SkipSpaces(line) == line;
  }

  /** Every key starts with a lower-case letter. */
  lemma KeyTextStart(k: IntKey)
    ensures KeyText(k) != [] && 'a' <= KeyText(k)[0] <= 'z'
  {
  }

  /** A line `key + value + "\n"` for an integer key, under that key's section. */
  lemma IntLineApplied(c: GameConfig, k: IntKey, value: string)
    requires ScanInt(value + "\n").Some?
    ensures LineApplied(c, Some(SectionOf(k)), KeyText(k) + value + "\n")
      == (Assigned(c, k, ScanInt(value + "\n").value), Some(SectionOf(k)))
  {
    var line := KeyText(k) + value + "\n";
    KeyTextStart(k);
    assert line[0] == KeyText(k)[0];
    KeyLineApplied(c, Some(SectionOf(k)), line);
    assert line == KeyText(k) + (value + "\n");
    IntKeyLine(c, k, value + "\n");
  }

  /** The `name=` line the printer writes is not a key the loader knows. */
  lemma NameLineInert(c: GameConfig, name: string)
    ensures LineApplied(c, Some("Video"), "name=" + name + "\n") == (c, Some("Video"))
  {
    var v := name + "\n";
    var line := "name=" + name + "\n";
    assert line[0] == 'n';
    KeyLineApplied(c, Some("Video"), line);
    assert line == "name=" + v;
    VideoKeysEndAtEquals();
    VideoKeysOf("name=", v);
    UnknownVideoKey(c, "name=" + v);
  }

  /** `s` with the fields of the keys in `ks` taken from `c`. */
  function Merged(c: GameConfig, s: GameConfig, ks: seq<IntKey>): GameConfig {
    s.(winW := if Width in ks then c.winW else s.winW,
       winH := if Height in ks then c.winH else s.winH,
       fullscreen := if Fullscreen in ks then c.fullscreen else s.fullscreen,
       vsync := if Vsync in ks then c.vsync else s.vsync,
       fps := if FpsKey in ks then c.fps else s.fps,
       masterVolume := if MasterVolume in ks then c.masterVolume else s.masterVolume,
       musicVolume := if MusicVolume in ks then c.musicVolume else s.musicVolume,
       sfxVolume := if SfxVolume in ks then c.sfxVolume else s.sfxVolume,
       audioFrequency := if AudioFrequency in ks then c.audioFrequency else s.audioFrequency,
       showFps := if ShowFps in ks then c.showFps else s.showFps,
       debugMode := if DebugMode in ks then c.debugMode else s.debugMode)
  }

  /** Setting a key's field from `c` is copying that one field. */
  lemma AssignedIsMerged(c: GameConfig, s: GameConfig, k: IntKey)
    ensures Assigned(s, k, Field(c, k)) == Merged(c, s, [k])
  {
    match k
    case Width =>
    case Height =>
    case Fullscreen =>
    case Vsync =>
    case FpsKey =>
    case MasterVolume =>
    case MusicVolume =>
    case SfxVolume =>
    case AudioFrequency =>
    case ShowFps =>
    case DebugMode =>
  }

  /** Copying the fields of `a`, then those of `b`, is copying those of `a + b`. */
  lemma MergedTwice(c: GameConfig, s: GameConfig, a: seq<IntKey>, b: seq<IntKey>)
    ensures Merged(c, Merged(c, s, a), b) == Merged(c, s, a + b)
  {
    assert forall k :: k in a + b <==> k in a || k in b;
  }

  /** Copying one key's field, then the rest, is copying them all. */
  lemma MergedCons(c: GameConfig, s: GameConfig, ks: seq<IntKey>)
    requires ks != []
    ensures Merged(c, Assigned(s, ks[0], Field(c, ks[0])), ks[1..]) == Merged(c, s, ks)
  {
    AssignedIsMerged(c, s, ks[0]);
    MergedTwice(c, s, [ks[0]], ks[1..]);
    assert [ks[0]] + ks[1..] == ks;
  }

  /** The `key=%d` lines of keys of one section, loaded under that section, copy
      exactly those fields. */
  lemma {:induction false} KeyLinesLoad(c: GameConfig, s: GameConfig, ks: seq<IntKey>, title: string)
    requires forall i :: 0 <= i < |ks| ==> SectionOf(ks[i]) == title
    ensures Parsed(KeyLines(c, ks), s, Some(title)) == (Merged(c, s, ks), Some(title))
    decreases |ks|
  {
    var L := KeyLines(c, ks);
    if ks == [] {
      assert Merged(c, s, ks) == s;
    } else {
      var k := ks[0];
      assert L[1..] == KeyLines(c, ks[1..]);
      ScanIntOfIntToDec(Field(c, k));
      IntLineApplied(s, k, IntToDec(Field(c, k)));
      KeyLinesLoad(c, Assigned(s, k, Field(c, k)), ks[1..], title);
      MergedCons(c, s, ks);
    }
  }

  /** A group of printConfig lines whose keys all belong to its section. */
  predicate WellFormed(g: Group) {
    && g.title != [] && ']' !in g.title
    && (g.named ==> g.title == "Video")
    && forall i :: 0 <= i < |g.keys| ==> SectionOf(g.keys[i]) == g.title
  }

  /** What follows a group's header, loaded under its section, copies exactly the
      group's fields. */
  lemma GroupBodyLoads(c: GameConfig, s: GameConfig, g: Group)
    requires WellFormed(g) && NameIsToken(c)
    ensures Parsed(GroupBody(c, g), s, Some(g.title)) == (Merged(c, s, g.keys), Some(g.title))
  {
    var name := if g.named then ["name=" + c.name + "\n"] else [];
    var keys := KeyLines(c, g.keys);
    var tail := if g.blank then ["\n"] else [];
    var T := Some(g.title);
    assert Parsed(name, s, T) == (s, T) by {
      if g.named {
        NameLineInert(s, c.name);
      }
    }
    ParsedAppend(name, keys + tail, s, T);
    KeyLinesLoad(c, s, g.keys, g.title);
    ParsedAppend(keys, tail, s, T);
  }

  /** The lines of a group, loaded under any section, set the section to the group's
      title and copy exactly the group's fields. */
  lemma GroupLoads(c: GameConfig, s: GameConfig, title: Option<string>, g: Group)
    requires WellFormed(g) && NameIsToken(c)
    ensures Parsed(GroupLines(c, g), s, title) == (Merged(c, s, g.keys), Some(g.title))
  {
    HeaderThen(s, title, g.title, GroupBody(c, g));
    GroupBodyLoads(c, s, g);
  }

  /** A header line followed by any lines loads those lines under the header's section. */
  lemma HeaderThen(c: GameConfig, title: Option<string>, t: string, body: seq<string>)
    requires t != [] && ']' !in t
    ensures Parsed(["[" + t + "]\n"] + body, c, title) == Parsed(body, c, Some(t))
  {
    var lines := ["[" + t + "]\n"] + body;
    assert lines[0] == "[" + t + "]\n" && lines[1..] == body;
    HeaderApplied(c, title, t);
  }

  lemma VideoAudioWellFormed()
    ensures WellFormed(VideoGroup) && WellFormed(AudioGroup)
  {
  }

  lemma GameDebugWellFormed()
    ensures WellFormed(GameGroup) && WellFormed(DebugGroup)
  {
  }

  /** Two groups printed one after the other load as the first, then the second. */
  lemma TwoGroupsLoad(c: GameConfig, s: GameConfig, title: Option<string>, g1: Group, g2: Group)
    requires WellFormed(g1) && WellFormed(g2) && NameIsToken(c)
    ensures Parsed(GroupLines(c, g1) + GroupLines(c, g2), s, title)
      == (Merged(c, s, g1.keys + g2.keys), Some(g2.title))
  {
    GroupLoads(c, s, title, g1);
    GroupLoads(c, Merged(c, s, g1.keys), Some(g1.title), g2);
    ParsedAppend(GroupLines(c, g1), GroupLines(c, g2), s, title);
    MergedTwice(c, s, g1.keys, g2.keys);
  }

  /** A header `[t]` parsed under any section. */
  lemma HeaderApplied(c: GameConfig, title: Option<string>, t: string)
    requires t != [] && ']' !in t
    ensures LineApplied(c, title, "[" + t + "]\n") == (c, Some(t))
  {
    HeaderSetsSection(c, title, "", t, "]\n");
    assert "" + "[" + t + "]\n" == "[" + t + "]\n";
  }

  /** Reloading what printConfig wrote, from any configuration and section, restores
      every numeric and boolean field and ends in the [Debug] section; the name is not
      restored, because the printer writes it under `name=` and the loader only reads
      `window_name=`. The name is a `%s` token, as every name the loader stores is
      (`ParsedKeepsTokenName`), so each printed string is one line (`PrintedAreLines`). */
  lemma PrintThenLoad(c: GameConfig, start: GameConfig, title: Option<string>)
    requires NameIsToken(c)
    ensures Parsed(PrintConfig(Some(c)), start, title) == (c.(name := start.name), Some("Debug"))
  {
    var V, A, G, D := GroupLines(c, VideoGroup), GroupLines(c, AudioGroup),
                      GroupLines(c, GameGroup), GroupLines(c, DebugGroup);
    assert PrintConfig(Some(c)) == (V + A) + (G + D);
    AllGroupsLoad(c, start, title);
  }

  lemma AllGroupsLoad(c: GameConfig, start: GameConfig, title: Option<string>)
    requires NameIsToken(c)
    ensures var V, A, G, D := GroupLines(c, VideoGroup), GroupLines(c, AudioGroup),
                              GroupLines(c, GameGroup), GroupLines(c, DebugGroup);
      Parsed((V + A) + (G + D), start, title) == (c.(name := start.name), Some("Debug"))
  {
    var V, A, G, D := GroupLines(c, VideoGroup), GroupLines(c, AudioGroup),
                      GroupLines(c, GameGroup), GroupLines(c, DebugGroup);
    VideoAudioWellFormed();
    GameDebugWellFormed();
    var front := VideoGroup.keys + AudioGroup.keys;
    var back := GameGroup.keys + DebugGroup.keys;
    TwoGroupsLoad(c, start, title, VideoGroup, AudioGroup);
    TwoGroupsLoad(c, Merged(c, start, front), Some("Audio"), GameGroup, DebugGroup);
    ParsedAppend(V + A, G + D, start, title);
    MergedTwice(c, start, front, back);
    assert Merged(c, start, front + back) == c.(name := start.name);
  }

  // ---------------------------------------------------------------------------
  // The name is a token, so the printed strings are the lines read back
  // ---------------------------------------------------------------------------

  /** A window name without white space, as `%s` stores it. */
  predicate NameIsToken(c: GameConfig) {
    forall i :: 0 <= i < |c.name| ==> !IsSpace(c.name[i])
  }

  /** One line as fgets returns it: it ends with its only newline. */
  predicate OneLine(l: string) {
    l != [] && l[|l| - 1] == '\n' && forall i :: 0 <= i < |l| - 1 ==> l[i] != '\n'
  }

  predicate AllOneLine(ls: seq<string>) {
    forall i :: 0 <= i < |ls| ==> OneLine(ls[i])
  }

  /** A [Video] line stores the `%s` token after `window_name=`, if there is one. */
  lemma VideoLineName(c: GameConfig, line: string)
    ensures var t := TokenAfter(line, "window_name=");
      VideoLine(c, line).name == if t.Some? then t.value else c.name
  {
  }

  /** A key line either keeps the name or stores the `%s` token after `window_name=`. */
  lemma KeyLineName(c: GameConfig, title: Option<string>, line: string)
    ensures var t := TokenAfter(line, "window_name=");
      KeyLine(c, title, line).name == c.name || (t.Some? && KeyLine(c, title, line).name == t.value)
  {
    if title == Some("Video") {
      VideoLineName(c, line);
    }
  }

  /** A line the loader applies keeps the name a token. */
  lemma LineKeepsTokenName(c: GameConfig, title: Option<string>, line: string)
    requires NameIsToken(c)
    ensures NameIsToken(LineApplied(c, title, line).0)
  {
    var r := LineApplied(c, title, line).0;
    assert r == c || r == KeyLine(c, title, line);
    KeyLineName(c, title, line);
  }

  /** Loading keeps the name a token: a configuration that starts with one (or with
      none) only ever holds names that `%s` read. */
  lemma {:induction false} ParsedKeepsTokenName(lines: seq<string>, c: GameConfig, title: Option<string>)
    requires NameIsToken(c)
    ensures NameIsToken(Parsed(lines, c, title).0)
    decreases |lines|
  {
    if lines != [] {
      LineKeepsTokenName(c, title, lines[0]);
      var next := LineApplied(c, title, lines[0]);
      ParsedKeepsTokenName(lines[1..], next.0, next.1);
    }
  }

  /** Two lists of lines make a list of lines. */
  lemma AllOneLineAppend(a: seq<string>, b: seq<string>)
    requires AllOneLine(a) && AllOneLine(b)
    ensures AllOneLine(a + b)
  {
    forall i | 0 <= i < |a + b|
      ensures OneLine((a + b)[i])
    {
      if i < |a| {
        assert (a + b)[i] == a[i];
      } else {
        assert (a + b)[i] == b[i - |a|];
      }
    }
  }

  /** `text + "\n"` is one line when the text holds no newline. */
  lemma EndedLine(text: string)
    requires forall i :: 0 <= i < |text| ==> text[i] != '\n'
    ensures OneLine(text + "\n")
  {
    var l := text + "\n";
    assert forall i :: 0 <= i < |l| - 1 ==> l[i] == text[i];
  }

  lemma VideoKeysNoNewline()
    ensures '\n' !in "width=" && '\n' !in "height=" && '\n' !in "fullscreen="
    ensures '\n' !in "vsync=" && '\n' !in "fps="
  {
  }

  lemma AudioKeysNoNewline()
    ensures '\n' !in "master_volume=" && '\n' !in "music_volume="
    ensures '\n' !in "sfx_volume=" && '\n' !in "audio_frequency="
  {
  }

  lemma FlagKeysNoNewline()
    ensures '\n' !in "show_fps=" && '\n' !in "debug_mode="
  {
  }

  /** No key holds a newline. */
  lemma KeyTextNoNewline(k: IntKey)
    ensures '\n' !in KeyText(k)
  {
    VideoKeysNoNewline();
    AudioKeysNoNewline();
    FlagKeysNoNewline();
  }

  /** A printed key line is one line. */
  lemma KeyLineIsLine(c: GameConfig, k: IntKey)
    ensures OneLine(KeyText(k) + IntToDec(Field(c, k)) + "\n")
  {
    var key := KeyText(k);
    var v := IntToDec(Field(c, k));
    var m: nat := if Field(c, k) < 0 then -Field(c, k) else Field(c, k);
    assert v == (if Field(c, k) < 0 then "-" else "") + NatToDec(m);
    assert forall i :: 0 <= i < |v| ==> v[i] != '\n';
    KeyTextNoNewline(k);
    assert forall i :: 0 <= i < |key| ==> key[i] != '\n' by {
      forall i | 0 <= i < |key|
        ensures key[i] != '\n'
      {
        assert key[i] in key;
      }
    }
    var text := key + v;
    assert forall i :: 0 <= i < |text| ==> text[i] != '\n' by {
      forall i | 0 <= i < |text|
        ensures text[i] != '\n'
      {
        if i < |key| {
          assert text[i] == key[i];
        } else {
          assert text[i] == v[i - |key|];
        }
      }
    }
    EndedLine(text);
  }

  /** The printed lines of a group, with a token name, are lines. */
  lemma GroupLinesAreLines(c: GameConfig, g: Group)
    requires NameIsToken(c) && forall i :: 0 <= i < |g.title| ==> g.title[i] != '\n'
    ensures AllOneLine(GroupLines(c, g))
  {
    var header := "[" + g.title + "]";
    assert forall i :: 0 <= i < |header| ==> header[i] != '\n' by {
      forall i | 0 <= i < |header|
        ensures header[i] != '\n'
      {
        if 0 < i <= |g.title| {
          assert header[i] == g.title[i - 1];
        }
      }
    }
    EndedLine(header);
    assert header + "\n" == "[" + g.title + "]\n";
    var name := "name=" + c.name;
    assert forall i :: 0 <= i < |name| ==> name[i] != '\n' by {
      forall i | 0 <= i < |name|
        ensures name[i] != '\n'
      {
        if i >= 5 {
          assert name[i] == c.name[i - 5];
          assert !IsSpace(c.name[i - 5]);
        }
      }
    }
    EndedLine(name);
    assert name + "\n" == "name=" + c.name + "\n";
    var keys := KeyLines(c, g.keys);
    forall i | 0 <= i < |keys|
      ensures OneLine(keys[i])
    {
      KeyLineIsLine(c, g.keys[i]);
    }
    var named: seq<string> := if g.named then ["name=" + c.name + "\n"] else [];
    var tail: seq<string> := if g.blank then ["\n"] else [];
    assert OneLine("\n");
    AllOneLineAppend(keys, tail);
    AllOneLineAppend(named, keys + tail);
    AllOneLineAppend(["[" + g.title + "]\n"], GroupBody(c, g));
  }

  /** With a token name, every string printConfig writes is exactly one line, so the
      file it writes reads back as those lines. */
  lemma PrintedAreLines(c: GameConfig)
    requires NameIsToken(c)
    ensures AllOneLine(PrintConfig(Some(c)))
  {
    GroupLinesAreLines(c, VideoGroup);
    GroupLinesAreLines(c, AudioGroup);
    GroupLinesAreLines(c, GameGroup);
    GroupLinesAreLines(c, DebugGroup);
    var V, A, G, D := GroupLines(c, VideoGroup), GroupLines(c, AudioGroup),
                      GroupLines(c, GameGroup), GroupLines(c, DebugGroup);
    AllOneLineAppend(V, A);
    AllOneLineAppend(V + A, G);
    AllOneLineAppend(V + A + G, D);
  }
}
