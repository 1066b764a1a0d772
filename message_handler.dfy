/**
 * utils/message_handler.py: the two regular expressions the bot applies to
 * raw message text. `extract_score` reads a Wordle share
 * (`Wordle <edition> <tries>/6`, a blank line, then one to six rows of
 * coloured tiles); `extract_command` reads the name of a slash command.
 *
 * The regular expressions are modelled as explicit scanners over the text.
 * Python's `\s` is the full set of characters `str.isspace()` accepts;
 * `\d` and `\w` are modelled by their ASCII members only.
 */
module MessageHandler {
  import opened Wrappers

  /** A parsed share: the edition number and the tries (7.0 for a failed game). */
  datatype Score = Score(edition: int, tries: real)

  /** `\d`, restricted to ASCII. */
  predicate IsDigit(c: char)
  {
    '0' <= c <= '9'
  }

  /** `\s`: every character for which Python's `str.isspace()` holds. */
  predicate IsSpace(c: char)
  {
    c in {'\t', '\n', '\U{000B}', '\U{000C}', '\r', '\U{001C}', '\U{001D}', '\U{001E}', '\U{001F}',
          ' ', '\U{0085}', '\U{00A0}', '\U{1680}', '\U{2000}', '\U{2001}', '\U{2002}', '\U{2003}',
          '\U{2004}', '\U{2005}', '\U{2006}', '\U{2007}', '\U{2008}', '\U{2009}', '\U{200A}',
          '\U{2028}', '\U{2029}', '\U{202F}', '\U{205F}', '\U{3000}'}
  }

  /** The tries group `[0-6X]`. */
  predicate IsTriesSymbol(c: char)
  {
    '0' <= c <= '6' || c == 'X'
  }

  /** `\w`, restricted to ASCII. */
  predicate IsWordChar(c: char)
  {
    'a' <= c <= 'z' || 'A' <= c <= 'Z' || '0' <= c <= '9' || c == '_'
  }

  predicate IsAt(c: char)
  {
    c == '@'
  }

  /** The tile alphabet of the share rows: yellow, green, black and white squares and U+FE0F. */
  const EmojiTiles: set<char> := {'\U{1F7E8}', '\U{1F7E9}', '\U{2B1B}', '\U{FE0F}', '\U{2B1C}'}

  /**
   * The tile class as it stands in utils/message_handler.py: the UTF-8 bytes
   * of the emoji read back as Windows-1254 text.
   */
  const UtilsTilesAsWritten: set<char> :=
    {'\U{011F}', '\U{0178}', '\U{00A8}', '\U{00A9}', '\U{00E2}', '\U{00AC}', '\U{203A}', '\U{00EF}', '\U{00B8}', '\U{0153}'}

  /**
   * The tile class as it stands in handlers/global_db_handler.py: the UTF-8
   * bytes of the emoji read back as Windows-1252 text.
   */
  const HandlersTilesAsWritten: set<char> :=
    {'\U{00F0}', '\U{0178}', '\U{00A8}', '\U{00A9}', '\U{00E2}', '\U{00AC}', '\U{203A}', '\U{00EF}', '\U{00B8}', '\U{0153}'}

  /** Tile alphabets that cannot swallow a line ending. */
  predicate ValidTiles(tiles: set<char>)
  {
    '\r' !in tiles && '\n' !in tiles
  }

  /** Length of the longest run of characters satisfying `p` that starts at `i` (a greedy `p*`). */
  function Run(p: char -> bool, s: string, i: nat): (n: nat)
    requires i <= |s|
    ensures i + n <= |s|
    ensures forall k :: i <= k < i + n ==> p(s[k])
    ensures i + n == |s| || !p(s[i + n])
    decreases |s| - i
  {
    if i < |s| && p(s[i]) then 1 + Run(p, s, i + 1) else 0
  }

  /** Python's `int()` of a string of ASCII digits. */
  function DigitsValue(ds: string): (v: nat)
    requires forall k :: 0 <= k < |ds| ==> IsDigit(ds[k])
  {
    if ds == [] then 0
    else
      var last := ds[|ds| - 1];
      assert IsDigit(last);
      10 * DigitsValue(ds[..|ds| - 1]) + (last as int - '0' as int)
  }

  /** The tries a symbol stands for: the digit's value, or 7.0 for a failed game `X`. */
  function TriesValue(c: char): (t: real)
    requires IsTriesSymbol(c)
    ensures 0.0 <= t <= 7.0
    ensures t == 7.0 <==> c == 'X'
  {
    if c == 'X' then 7.0 else (c as int - '0' as int) as real
  }

  /** One tile row starting at `p`: `[tiles]+` followed by `\r?\n`. */
  predicate TileLineAt(tiles: set<char>, s: string, p: nat)
    requires p <= |s|
  {
    var n := Run(c => c in tiles, s, p);
    var q := p + n;
    n > 0 && ((q < |s| && s[q] == '\n') || (q + 1 < |s| && s[q] == '\r' && s[q + 1] == '\n'))
  }

  /**
   * `extract_score`: `re.match` of
   * `Wordle\s(\d+)\s([0-6X])/6\n{2}(?:[tiles]+\r?\n){1,6}` at the start of
   * the text. Only the first tile row decides whether the text matches, since
   * the match need not reach the end of the text. `None` stands for the
   * failed match, on which the Python function raises.
   */
  function ExtractScore(tiles: set<char>, text: string): (r: Option<Score>)
    ensures r.Some? ==> r.value.edition >= 0 && 0.0 <= r.value.tries <= 7.0
  {
    if |text| < 7 || text[..6] != "Wordle" || !IsSpace(text[6]) then None
    else
      var n := Run(IsDigit, text, 7);
      var p := 7 + n;
      if n == 0 || |text| < p + 6 || !IsSpace(text[p]) || !IsTriesSymbol(text[p + 1])
         || text[p + 2..p + 6] != "/6\n\n" || !TileLineAt(tiles, text, p + 6)
      then None
      else Some(Score(DigitsValue(text[7..p]), TriesValue(text[p + 1])))
  }

  /** The shape of a share: header, blank line and the first tile row with its line ending. */
  function ShareText(ds: string, sep1: char, sep2: char, sym: char, row: string, cr: bool): string
  {
    "Wordle" + [sep1] + ds + [sep2] + [sym] + "/6\n\n" + row + (if cr then "\r\n" else "\n")
  }

  /** The pieces of a share are of the kinds the pattern demands. */
  ghost predicate WellFormedShare(tiles: set<char>, ds: string, sep1: char, sep2: char, sym: char, row: string)
  {
    && |ds| > 0 && (forall k :: 0 <= k < |ds| ==> IsDigit(ds[k]))
    && IsSpace(sep1) && IsSpace(sep2) && IsTriesSymbol(sym)
    && |row| > 0 && (forall k :: 0 <= k < |row| ==> row[k] in tiles)
  }

  /** `text` begins with a share whose edition and tries are those of `sc`. */
  ghost predicate IsShare(tiles: set<char>, text: string, sc: Score)
  {
    exists ds, sep1, sep2, sym, row, cr ::
      && WellFormedShare(tiles, ds, sep1, sep2, sym, row)
      && ShareText(ds, sep1, sep2, sym, row, cr) <= text
      && sc == Score(DigitsValue(ds), TriesValue(sym))
  }

  /** A run that ends where `p` first fails has exactly the length `Run` reports. */
  lemma {:induction false} RunExact(p: char -> bool, s: string, i: nat, len: nat)
    requires i + len <= |s|
    requires forall k :: i <= k < i + len ==> p(s[k])
    requires i + len == |s| || !p(s[i + len])
    ensures Run(p, s, i) == len
    decreases len
  {
    if len > 0 {
      RunExact(p, s, i + 1, len - 1);
    }
  }

  /** Where each piece of a share sits. */
  lemma ShareLayout(ds: string, sep1: char, sep2: char, sym: char, row: string, cr: bool)
    ensures var share, p := ShareText(ds, sep1, sep2, sym, row, cr), 7 + |ds|;
      && |share| == p + 6 + |row| + (if cr then 2 else 1)
      && share[..6] == "Wordle" && share[6] == sep1 && share[7..p] == ds
      && share[p] == sep2 && share[p + 1] == sym && share[p + 2..p + 6] == "/6\n\n"
      && share[p + 6..p + 6 + |row|] == row
      && share[p + 6 + |row|] == (if cr then '\r' else '\n')
      && (cr ==> share[p + 7 + |row|] == '\n')
  {
    var head := "Wordle" + [sep1] + ds + [sep2] + [sym] + "/6\n\n";
    var eol := if cr then "\r\n" else "\n";
    var share := ShareText(ds, sep1, sep2, sym, row, cr);
    assert share == head + row + eol;
    var p := 7 + |ds|;
    assert share[..p + 6] == head;
    assert share[p + 6..p + 6 + |row|] == row;
    assert share[p + 6 + |row|..] == eol;
    assert head[..6] == "Wordle";
    assert head[7..p] == ds;
    assert head[p + 2..p + 6] == "/6\n\n";
  }

  /** A share, followed by anything, is read back as its edition and tries. */
  lemma ExtractScoreOfShare(tiles: set<char>, ds: string, sep1: char, sep2: char, sym: char,
                            row: string, cr: bool, text: string)
    requires ValidTiles(tiles)
    requires WellFormedShare(tiles, ds, sep1, sep2, sym, row)
    requires ShareText(ds, sep1, sep2, sym, row, cr) <= text
    ensures ExtractScore(tiles, text) == Some(Score(DigitsValue(ds), TriesValue(sym)))
  {
    var share := ShareText(ds, sep1, sep2, sym, row, cr);
    ShareLayout(ds, sep1, sep2, sym, row, cr);
    var p := 7 + |ds|;
    var q := p + 6;
    assert text[..|share|] == share;
    assert text[..6] == "Wordle";
    assert text[6] == sep1;
    assert text[7..p] == ds;
    assert text[p] == sep2 && text[p + 1] == sym;
    assert text[p + 2..p + 6] == "/6\n\n";
    assert text[q..q + |row|] == row;
    assert text[q + |row|] == (if cr then '\r' else '\n');
    assert cr ==> text[q + |row| + 1] == '\n';
    RunExact(IsDigit, text, 7, |ds|);
    RunExact(c => c in tiles, text, q, |row|);
    assert TileLineAt(tiles, text, q);
  }

  /** A successful read comes from a share with exactly that edition and tries. */
  lemma ExtractScoreIsShare(tiles: set<char>, text: string)
    requires ExtractScore(tiles, text).Some?
    ensures IsShare(tiles, text, ExtractScore(tiles, text).value)
  {
    var n := Run(IsDigit, text, 7);
    var p := 7 + n;
    var q := p + 6;
    var m := Run(c => c in tiles, text, q);
    var ds, sep1, sep2, sym, row := text[7..p], text[6], text[p], text[p + 1], text[q..q + m];
    var cr := text[q + m] == '\r';
    var share := ShareText(ds, sep1, sep2, sym, row, cr);
    assert |share| <= |text|;
    assert forall k :: 0 <= k < |share| ==> share[k] == text[k];
    assert share <= text;
    assert WellFormedShare(tiles, ds, sep1, sep2, sym, row);
  }

  /**
   * The scanner accepts exactly the texts that begin with a share, and reads
   * from them exactly the share's edition and tries.
   */
  lemma ExtractScoreMatchesGrammar(tiles: set<char>, text: string, sc: Score)
    requires ValidTiles(tiles)
    ensures ExtractScore(tiles, text) == Some(sc) <==> IsShare(tiles, text, sc)
  {
    if ExtractScore(tiles, text) == Some(sc) {
      ExtractScoreIsShare(tiles, text);
    }
    if IsShare(tiles, text, sc) {
      var ds, sep1, sep2, sym, row, cr :|
        && WellFormedShare(tiles, ds, sep1, sep2, sym, row)
        && ShareText(ds, sep1, sep2, sym, row, cr) <= text
        && sc == Score(DigitsValue(ds), TriesValue(sym));
      ExtractScoreOfShare(tiles, ds, sep1, sep2, sym, row, cr, text);
    }
  }

  /** A real share of edition 100, solved in three tries. */
  const SampleShare: string :=
    "Wordle 100 3/6\n\n"
    + "\U{2B1B}\U{1F7E9}\U{1F7E8}\U{2B1B}\U{2B1B}\n"
    + "\U{1F7E9}\U{1F7E9}\U{1F7E9}\U{1F7E9}\U{1F7E9}\n"

  /** The emoji alphabet shares no character with either as-written class. */
  lemma AsWrittenTilesMissEmoji()
    ensures EmojiTiles * UtilsTilesAsWritten == {}
    ensures EmojiTiles * HandlersTilesAsWritten == {}
  {
  }

  /**
   * With the class as written, no share whose rows are drawn from the emoji
   * squares is read: the score of every real message is rejected.
   */
  lemma AsWrittenRejectsEveryEmojiShare(tiles: set<char>, ds: string, sep1: char, sep2: char, sym: char,
                                        row: string, cr: bool, text: string)
    requires tiles == UtilsTilesAsWritten || tiles == HandlersTilesAsWritten
    requires WellFormedShare(EmojiTiles, ds, sep1, sep2, sym, row)
    requires ShareText(ds, sep1, sep2, sym, row, cr) <= text
    ensures ExtractScore(tiles, text) == None
  {
    var share := ShareText(ds, sep1, sep2, sym, row, cr);
    ShareLayout(ds, sep1, sep2, sym, row, cr);
    var p := 7 + |ds|;
    var q := p + 6;
    assert text[..|share|] == share;
    assert text[7..p] == ds;
    assert text[p] == sep2;
    RunExact(IsDigit, text, 7, |ds|);
    assert text[q..q + |row|] == row;
    assert text[q] == row[0] && row[0] in EmojiTiles;
    AsWrittenTilesMissEmoji();
    assert text[q] !in tiles;
    assert Run(c => c in tiles, text, q) == 0;
  }

  /** The sample share is rejected by both as-written classes. */
  lemma AsWrittenRejectsSampleShare()
    ensures ExtractScore(UtilsTilesAsWritten, SampleShare) == None
    ensures ExtractScore(HandlersTilesAsWritten, SampleShare) == None
  {
    var row := "\U{2B1B}\U{1F7E9}\U{1F7E8}\U{2B1B}\U{2B1B}";
    assert WellFormedShare(EmojiTiles, "100", ' ', ' ', '3', row);
    assert ShareText("100", ' ', ' ', '3', row, false) <= SampleShare;
    AsWrittenRejectsEveryEmojiShare(UtilsTilesAsWritten, "100", ' ', ' ', '3', row, false, SampleShare);
    AsWrittenRejectsEveryEmojiShare(HandlersTilesAsWritten, "100", ' ', ' ', '3', row, false, SampleShare);
  }

  /** With the emoji class the sample share reads as edition 100 in three tries. */
  lemma EmojiTilesReadSampleShare()
    ensures ExtractScore(EmojiTiles, SampleShare) == Some(Score(100, 3.0))
  {
    var row := "\U{2B1B}\U{1F7E9}\U{1F7E8}\U{2B1B}\U{2B1B}";
    assert WellFormedShare(EmojiTiles, "100", ' ', ' ', '3', row);
    assert ShareText("100", ' ', ' ', '3', row, false) <= SampleShare;
    ExtractScoreOfShare(EmojiTiles, "100", ' ', ' ', '3', row, false, SampleShare);
    assert DigitsValue("100") == 100 by {
      assert "100"[..2] == "10" && "10"[..1] == "1" && "1"[..0] == "";
    }
  }

  /** Index of the first `/` at or after `i`, if any (where `re.search` starts its match). */
  function FirstSlash(s: string, i: nat): (r: Option<nat>)
    requires i <= |s|
    ensures r.Some? ==> i <= r.value < |s| && s[r.value] == '/' && forall k :: i <= k < r.value ==> s[k] != '/'
    ensures r.None? ==> forall k :: i <= k < |s| ==> s[k] != '/'
    decreases |s| - i
  {
    if i == |s| then None else if s[i] == '/' then Some(i) else FirstSlash(s, i + 1)
  }

  /**
   * `extract_command`: `re.search('/(.*?)@*\w*', command).group(0)[1:]`. The
   * lazy group matches nothing, so the result is the run of `@` and then the
   * run of word characters right after the first `/`. `None` stands for the
   * failed search, on which the Python function raises.
   */
  function ExtractCommand(command: string): (r: Option<string>)
    ensures r.None? <==> '/' !in command
    ensures r.Some? ==> forall k :: 0 <= k < |r.value| ==> r.value[k] == '@' || IsWordChar(r.value[k])
  {
    match FirstSlash(command, 0)
    case None => None
    case Some(i) =>
      var ats := Run(IsAt, command, i + 1);
      var word := Run(IsWordChar, command, i + 1 + ats);
      Some(command[i + 1..i + 1 + ats + word])
  }

  /** `/name@BotName` (or `/name` followed by any non-word text) yields `name`. */
  lemma ExtractCommandOfBotCommand(prefix: string, name: string, suffix: string)
    requires '/' !in prefix
    requires |name| > 0 && forall k :: 0 <= k < |name| ==> IsWordChar(name[k])
    requires suffix == [] || !IsWordChar(suffix[0])
    ensures ExtractCommand(prefix + "/" + name + suffix) == Some(name)
  {
    var s := prefix + "/" + name + suffix;
    var i := |prefix|;
    assert s[i] == '/';
    assert forall k :: 0 <= k < i ==> s[k] == prefix[k];
    assert FirstSlash(s, 0) == Some(i);
    assert s[i + 1] == name[0];
    assert Run(IsAt, s, i + 1) == 0;
    assert s[i + 1..i + 1 + |name|] == name;
    assert i + 1 + |name| < |s| ==> s[i + 1 + |name|] == suffix[0];
    RunExact(IsWordChar, s, i + 1, |name|);
  }
}
