/** The pin a service registration records in a comment line. */
module Pin {
  import opened Common
  import opened Digits

  /** The config path, as bytes, and the trusted owner. */
  datatype Pin = Pin(config: seq<Byte>, uid: U32)

  const KEY := "iroh-tunnel-pin"

  // ------------------------------------------------------------- characters

  /** Unicode White_Space. */
  predicate IsSpace(c: char) {
    var n := c as int;
    || 9 <= n <= 13 || n == 32 || n == 0x85 || n == 0xA0 || n == 0x1680 || 0x2000 <= n <= 0x200A
    || n == 0x2028 || n == 0x2029 || n == 0x202F || n == 0x205F || n == 0x3000
  }

  function HexDigit(n: nat): char
    requires n < 16
  {
    if n < 10 then '0' + n as char else 'A' + (n - 10) as char
  }

  function HexValue(c: char): Option<nat> {
    if IsDigit(c) then Some((c - '0') as nat)
    else if 'A' <= c <= 'F' then Some((c - 'A') as nat + 10)
    else if 'a' <= c <= 'f' then Some((c - 'a') as nat + 10)
    else None
  }

  /** The bytes of a character in UTF-8. */
  function Utf8(c: char): seq<Byte> {
    var n := c as int;
    if n < 0x80 then [n]
    else if n < 0x800 then [0xC0 + n / 0x40, 0x80 + n % 0x40]
    else if n < 0x1_0000 then [0xE0 + n / 0x1000, 0x80 + n / 0x40 % 0x40, 0x80 + n % 0x40]
    else [0xF0 + n / 0x4_0000, 0x80 + n / 0x1000 % 0x40, 0x80 + n / 0x40 % 0x40, 0x80 + n % 0x40]
  }

  // ----------------------------------------------------------------- escape

  /** Letters, digits, `/`, `.` and `_` stand for themselves. */
  predicate IsPlain(b: Byte) {
    48 <= b <= 57 || 65 <= b <= 90 || 97 <= b <= 122 || b == 47 || b == 46 || b == 95
  }

  function EscapeByte(b: Byte): string {
    if IsPlain(b) then [b as char] else ['%', HexDigit(b / 16), HexDigit(b % 16)]
  }

  function Escape(path: seq<Byte>): string {
    if path == [] then "" else EscapeByte(path[0]) + Escape(path[1..])
  }

  lemma Associate(a: string, b: string, c: string)
    ensures a + (b + c) == a + b + c
  {
  }

  lemma EscapeStep(path: seq<Byte>, i: nat)
    requires i < |path|
    ensures Escape(path[i..]) == EscapeByte(path[i]) + Escape(path[i + 1..])
  {
    assert path[i..][0] == path[i] && path[i..][1..] == path[i + 1..];
  }

  method EscapePath(path: seq<Byte>) returns (out: string)
    ensures out == Escape(path)
  {
    out := "";
    assert path[0..] == path;
    for i := 0 to |path|
      invariant Escape(path) == out + Escape(path[i..])
    {
      EscapeStep(path, i);
      ghost var before := out;
      if IsPlain(path[i]) {
        out := out + [path[i] as char];
      } else {
        out := out + ['%', HexDigit(path[i] / 16), HexDigit(path[i] % 16)];
      }
      assert out == before + EscapeByte(path[i]);
      Associate(before, EscapeByte(path[i]), Escape(path[i + 1..]));
    }
    assert path[|path|..] == [];
  }

  // --------------------------------------------------------------- unescape

  /** `u8::from_str_radix` on two characters, which also takes a leading plus. */
  function ParseHex(first: char, second: char): Option<Byte> {
    match HexValue(second)
    case None => None
    case Some(low) =>
      if first == '+' then Some(low)
      else
        match HexValue(first)
        case None => None
        case Some(high) => Some(high * 16 + low)
  }

  function Prepend(out: seq<Byte>, r: Option<seq<Byte>>): Option<seq<Byte>> {
    if r.Some? then Some(out + r.value) else None
  }

  /** A `%` stands for the byte its two hex digits name; anything else, outside ASCII
      too, for its own bytes. */
  function Unescape(text: string): Option<seq<Byte>> {
    if text == "" then Some([])
    else if text[0] != '%' then Prepend(Utf8(text[0]), Unescape(text[1..]))
    else if |text| < 3 then None
    else
      match ParseHex(text[1], text[2])
      case None => None
      case Some(b) => Prepend([b], Unescape(text[3..]))
  }

  lemma PrependTwice(out: seq<Byte>, more: seq<Byte>, r: Option<seq<Byte>>)
    ensures Prepend(out, Prepend(more, r)) == Prepend(out + more, r)
  {
    if r.Some? {
      assert out + (more + r.value) == out + more + r.value;
    }
  }

  method UnescapeText(text: string) returns (r: Option<seq<Byte>>)
    ensures r == Unescape(text)
  {
    var out: seq<Byte>, i := [], 0;
    assert text[0..] == text;
    assert Unescape(text).Some? ==> [] + Unescape(text).value == Unescape(text).value;
    while i < |text|
      invariant i <= |text|
      invariant Unescape(text) == Prepend(out, Unescape(text[i..]))
    {
      if text[i] == '%' {
        if i + 3 > |text| {
          return None;
        }
        var hex := ParseHex(text[i + 1], text[i + 2]);
        if hex.None? {
          return None;
        }
        assert text[i..][3..] == text[i + 3..];
        PrependTwice(out, [hex.value], Unescape(text[i + 3..]));
        out, i := out + [hex.value], i + 3;
      } else {
        assert text[i..][1..] == text[i + 1..];
        PrependTwice(out, Utf8(text[i]), Unescape(text[i + 1..]));
        out, i := out + Utf8(text[i]), i + 1;
      }
    }
    assert text[i..] == "" && out + [] == out;
    return Some(out);
  }

  // ---------------------------------------------------------------- numbers

  function Decimal(n: nat): string {
    if n < 10 then ['0' + n as char] else Decimal(n / 10) + ['0' + (n % 10) as char]
  }

  /** `str::parse::<u32>`: decimal digits, at least one, after an optional plus. */
  function ParseU32(s: string): Option<U32> {
    var digits := if s != "" && s[0] == '+' then s[1..] else s;
    if digits != "" && AllDigits(digits) && Number(digits) <= U32_MAX then Some(Number(digits)) else None
  }

  // ------------------------------------------------------------------- text

  predicate HasPrefix(s: string, prefix: string) {
    |prefix| <= |s| && s[..|prefix|] == prefix
  }

  function TrimStart(s: string): string {
    if s != "" && IsSpace(s[0]) then TrimStart(s[1..]) else s
  }

  /** `trim_end_matches("-->")`. */
  function TrimArrows(s: string): string
    decreases |s|
  {
    if |s| >= 3 && s[|s| - 3..] == "-->" then TrimArrows(s[..|s| - 3]) else s
  }

  function IndexOf(s: string, part: string): Option<nat> {
    if HasPrefix(s, part) then Some(0)
    else if s == "" then None
    else
      match IndexOf(s[1..], part)
      case None => None
      case Some(i) => Some(i + 1)
  }

  /** The length of the longest prefix without white space. */
  function WordLength(s: string): (n: nat)
    ensures n <= |s|
    ensures forall i :: 0 <= i < n ==> !IsSpace(s[i])
    ensures n < |s| ==> IsSpace(s[n])
  {
    if s == "" || IsSpace(s[0]) then 0 else 1 + WordLength(s[1..])
  }

  function SplitWhitespace(s: string): seq<string> {
    if s == "" then []
    else if IsSpace(s[0]) then SplitWhitespace(s[1..])
    else [s[..WordLength(s)]] + SplitWhitespace(s[WordLength(s)..])
  }

  /** The length of the longest prefix without a line feed. */
  function LineLength(s: string): (n: nat)
    ensures n <= |s|
    ensures forall i :: 0 <= i < n ==> s[i] != '\n'
    ensures n < |s| ==> s[n] == '\n'
  {
    if s == "" || s[0] == '\n' then 0 else 1 + LineLength(s[1..])
  }

  /** A terminated line loses one carriage return before its line feed. */
  function StripReturn(line: string): string {
    if line != "" && line[|line| - 1] == '\r' then line[..|line| - 1] else line
  }

  /** `str::lines`. */
  function Lines(s: string): seq<string> {
    if s == "" then []
    else
      var n := LineLength(s);
      if n == |s| then [s] else [StripReturn(s[..n])] + Lines(s[n + 1..])
  }

  // ------------------------------------------------------- record and find

  function Record(pin: Pin): string {
    KEY + " config=" + Escape(pin.config) + " uid=" + Decimal(pin.uid)
  }

  predicate IsPinLine(line: string) {
    var l := TrimStart(line);
    || (HasPrefix(l, "# ") && HasPrefix(l[2..], KEY))
    || (HasPrefix(l, "<!-- ") && HasPrefix(l[5..], KEY))
  }

  datatype Fields = Fields(config: Option<seq<Byte>>, uid: Option<U32>)

  function ReadField(f: Fields, word: string): Fields {
    var field := TrimArrows(word);
    if HasPrefix(field, "config=") then f.(config := Unescape(field[7..]))
    else if HasPrefix(field, "uid=") then f.(uid := ParseU32(field[4..]))
    else f
  }

  function ReadFields(f: Fields, words: seq<string>): Fields
    decreases |words|
  {
    if words == [] then f else ReadFields(ReadField(f, words[0]), words[1..])
  }

  function ParseLine(line: string): Option<Pin> {
    match IndexOf(line, KEY)
    case None => None
    case Some(i) =>
      var f := if i + |KEY| <= |line| then ReadFields(Fields(None, None), SplitWhitespace(line[i + |KEY|..])) else Fields(None, None);
      if f.config.Some? && f.uid.Some? then Some(Pin(f.config.value, f.uid.value)) else None
  }

  function FindInLines(lines: seq<string>): Option<Pin> {
    if lines == [] then None
    else if IsPinLine(lines[0]) then ParseLine(lines[0])
    else FindInLines(lines[1..])
  }

  function Find(body: string): Option<Pin> {
    FindInLines(Lines(body))
  }

  lemma {:induction false} IndexOfFits(s: string, part: string)
    ensures IndexOf(s, part).Some? ==> IndexOf(s, part).value + |part| <= |s|
  {
    if !HasPrefix(s, part) && s != "" {
      IndexOfFits(s[1..], part);
    }
  }

  method FindPin(body: string) returns (r: Option<Pin>)
    ensures r == Find(body)
  {
    var lines := Lines(body);
    var n := 0;
    while n < |lines| && !IsPinLine(lines[n])
      invariant n <= |lines|
      invariant Find(body) == FindInLines(lines[n..])
    {
      assert lines[n..][1..] == lines[n + 1..];
      n := n + 1;
    }
    if n == |lines| {
      return None;
    }
    var at := IndexOf(lines[n], KEY);
    if at.None? {
      return None;
    }
    IndexOfFits(lines[n], KEY);
    var words := SplitWhitespace(lines[n][at.value + |KEY|..]);
    var config: Option<seq<Byte>>, uid: Option<U32> := None, None;
    for i := 0 to |words|
      invariant ReadFields(Fields(None, None), words) == ReadFields(Fields(config, uid), words[i..])
    {
      assert words[i..][1..] == words[i + 1..];
      var field := TrimArrows(words[i]);
      if HasPrefix(field, "config=") {
        config := UnescapeText(field[7..]);
      } else if HasPrefix(field, "uid=") {
        uid := ParseU32(field[4..]);
      }
    }
    if config.None? || uid.None? {
      return None;
    }
    return Some(Pin(config.value, uid.value));
  }

  // ------------------------------------------------------------ round trips

  lemma HexRoundTrip(b: Byte)
    ensures ParseHex(HexDigit(b / 16), HexDigit(b % 16)) == Some(b)
  {
    HexDigitValue(b / 16);
    HexDigitValue(b % 16);
  }

  lemma HexDigitValue(n: nat)
    requires n < 16
    ensures HexValue(HexDigit(n)) == Some(n) && HexDigit(n) != '+' && HexDigit(n) != '-'
    ensures !IsSpace(HexDigit(n)) && HexDigit(n) != '>'
  {
  }

  /** Unescaping gives back every byte string. */
  lemma {:induction false} UnescapeInvertsEscape(path: seq<Byte>)
    ensures Unescape(Escape(path)) == Some(path)
  {
    if path != [] {
      var b, rest := path[0], Escape(path[1..]);
      UnescapeInvertsEscape(path[1..]);
      assert path == [b] + path[1..];
      if IsPlain(b) {
        assert Escape(path)[0] == b as char && Escape(path)[1..] == rest;
        assert b as char != '%' && Utf8(b as char) == [b];
      } else {
        HexRoundTrip(b);
        assert Escape(path)[3..] == rest;
      }
    }
  }

  lemma EscapeIsInjective(a: seq<Byte>, b: seq<Byte>)
    requires Escape(a) == Escape(b)
    ensures a == b
  {
    UnescapeInvertsEscape(a);
    UnescapeInvertsEscape(b);
  }

  /** Neither white space nor anything an XML comment or the field syntax minds. */
  predicate IsTame(c: char) {
    !IsSpace(c) && c != '-' && c != '>'
  }

  predicate AllTame(s: string) {
    forall i :: 0 <= i < |s| ==> IsTame(s[i])
  }

  lemma {:induction false} EscapeIsTame(path: seq<Byte>)
    ensures AllTame(Escape(path))
  {
    if path != [] {
      EscapeIsTame(path[1..]);
      HexDigitValue(path[0] / 16);
      HexDigitValue(path[0] % 16);
    }
  }

  lemma {:induction false} DecimalRoundTrip(n: nat)
    ensures Decimal(n) != "" && AllDigits(Decimal(n)) && Number(Decimal(n)) == n && AllTame(Decimal(n))
  {
    if n >= 10 {
      DecimalRoundTrip(n / 10);
      var s := Decimal(n);
      assert s[..|s| - 1] == Decimal(n / 10);
    }
  }

  lemma ParseInvertsDecimal(n: U32)
    ensures ParseU32(Decimal(n)) == Some(n)
  {
    DecimalRoundTrip(n);
    assert Decimal(n)[0] != '+';
  }

  lemma TameWord(word: string)
    requires word != "" && word[|word| - 1] != '>'
    ensures TrimArrows(word) == word
  {
  }

  lemma {:induction false} WholeWord(w: string, tail: string)
    requires forall i :: 0 <= i < |w| ==> !IsSpace(w[i])
    requires tail == "" || IsSpace(tail[0])
    ensures WordLength(w + tail) == |w|
  {
    if w == "" {
      assert w + tail == tail;
    } else {
      assert (w + tail)[1..] == w[1..] + tail;
      WholeWord(w[1..], tail);
    }
  }

  lemma SplitsWord(w: string, tail: string)
    requires w != "" && forall i :: 0 <= i < |w| ==> !IsSpace(w[i])
    requires tail == "" || IsSpace(tail[0])
    ensures SplitWhitespace(w + tail) == [w] + SplitWhitespace(tail)
  {
    WholeWord(w, tail);
    assert (w + tail)[..|w|] == w && (w + tail)[|w|..] == tail;
  }

  /** What may follow a record in its line: nothing, or the end of an XML comment. */
  predicate IsTail(tail: string) {
    tail == "" || tail == " -->"
  }

  function ConfigWord(pin: Pin): string {
    "config=" + Escape(pin.config)
  }

  function UidWord(pin: Pin): string {
    "uid=" + Decimal(pin.uid)
  }

  /** What a record has after its key. */
  function RecordFields(pin: Pin): string {
    " " + (ConfigWord(pin) + (" " + UidWord(pin)))
  }

  lemma Regroup(a: string, b: string, c: string, d: string, e: string)
    ensures a + (b + (c + d)) + e == a + (b + (c + (d + e)))
  {
  }

  lemma RecordIsKeyAndFields(pin: Pin)
    ensures Record(pin) == KEY + RecordFields(pin)
  {
    var e, u := Escape(pin.config), Decimal(pin.uid);
    assert " config=" == " " + "config=" && " uid=" == " " + "uid=";
    RegroupRecord(KEY, " ", "config=", e, "uid=", u);
  }

  lemma RegroupRecord(key: string, space: string, c: string, e: string, d: string, u: string)
    ensures key + (space + c) + e + (space + d) + u == key + (space + ((c + e) + (space + (d + u))))
  {
  }

  /** White space, a word, and what follows the word. */
  lemma SplitsSpacedWord(w: string, tail: string)
    requires w != "" && forall i :: 0 <= i < |w| ==> !IsSpace(w[i])
    requires tail == "" || IsSpace(tail[0])
    ensures SplitWhitespace(" " + (w + tail)) == [w] + SplitWhitespace(tail)
  {
    var s := " " + (w + tail);
    assert s[0] == ' ' && s[1..] == w + tail;
    SplitsWord(w, tail);
  }

  lemma WordsAreWords(pin: Pin)
    ensures forall i :: 0 <= i < |ConfigWord(pin)| ==> !IsSpace(ConfigWord(pin)[i])
    ensures forall i :: 0 <= i < |UidWord(pin)| ==> !IsSpace(UidWord(pin)[i])
  {
    EscapeIsTame(pin.config);
    DecimalRoundTrip(pin.uid);
  }

  lemma TailWords(tail: string)
    requires IsTail(tail)
    ensures SplitWhitespace(tail) == if tail == "" then [] else ["-->"]
  {
    if tail != "" {
      SplitsSpacedWord("-->", "");
      assert tail == " " + ("-->" + "");
    }
  }

  lemma RecordWords(pin: Pin, tail: string)
    requires IsTail(tail)
    ensures SplitWhitespace(RecordFields(pin) + tail) == [ConfigWord(pin), UidWord(pin)] + if tail == "" then [] else ["-->"]
  {
    var config, uid := ConfigWord(pin), UidWord(pin);
    WordsAreWords(pin);
    TailWords(tail);
    SplitsSpacedWord(uid, tail);
    SplitsSpacedWord(config, " " + (uid + tail));
    Regroup(" ", config, " ", uid, tail);
  }

  /** The fields of a record read back as the pin. */
  lemma RecordReadsBack(pin: Pin, tail: string)
    requires IsTail(tail)
    ensures ReadFields(Fields(None, None), SplitWhitespace(RecordFields(pin) + tail)) == Fields(Some(pin.config), Some(pin.uid))
  {
    RecordWords(pin, tail);
    var config, uid := ConfigWord(pin), UidWord(pin);
    var f1, f2 := Fields(Some(pin.config), None), Fields(Some(pin.config), Some(pin.uid));
    ReadsConfig(pin);
    ReadsUid(pin);
    var words := SplitWhitespace(RecordFields(pin) + tail);
    assert ReadField(Fields(None, None), config) == f1;
    assert ReadField(f1, uid) == f2;
    assert words[0] == config && words[1..][0] == uid;
    assert words[1..][1..] == if tail == "" then [] else ["-->"];
    ReadsArrow(f2);
    assert ReadFields(f2, words[1..][1..]) == f2;
    assert ReadFields(f1, words[1..]) == f2;
  }

  lemma ReadsArrow(f: Fields)
    ensures ReadFields(f, ["-->"]) == f
  {
    assert "-->"[..0] == "" && "-->"[0..] == "-->";
    assert TrimArrows("-->") == TrimArrows("");
    assert ["-->"][1..] == [];
    assert ReadField(f, "-->") == f;
  }

  lemma ReadsConfig(pin: Pin)
    ensures ReadField(Fields(None, None), ConfigWord(pin)) == Fields(Some(pin.config), None)
  {
    var word := "config=" + Escape(pin.config);
    EscapeIsTame(pin.config);
    TameWord(word);
    assert word[..7] == "config=" && word[7..] == Escape(pin.config);
    UnescapeInvertsEscape(pin.config);
  }

  lemma ReadsUid(pin: Pin)
    ensures ReadField(Fields(Some(pin.config), None), UidWord(pin)) == Fields(Some(pin.config), Some(pin.uid))
  {
    var word := "uid=" + Decimal(pin.uid);
    DecimalRoundTrip(pin.uid);
    TameWord(word);
    assert word[..4] == "uid=" && word[4..] == Decimal(pin.uid);
    assert word[0] != "config="[0];
    ParseInvertsDecimal(pin.uid);
  }

  // ------------------------------------------------------- the line's place

  predicate IsIndent(s: string) {
    forall i :: 0 <= i < |s| ==> IsSpace(s[i]) && s[i] != '\n'
  }

  lemma {:induction false} TrimsIndent(indent: string, text: string)
    requires IsIndent(indent) && text != "" && !IsSpace(text[0])
    ensures TrimStart(indent + text) == text
  {
    if indent == "" {
      assert indent + text == text;
    } else {
      assert (indent + text)[1..] == indent[1..] + text;
      TrimsIndent(indent[1..], text);
    }
  }

  lemma OtherFirstLetter(s: string, part: string)
    requires s != "" && part != "" && s[0] != part[0]
    ensures !HasPrefix(s, part)
  {
    if |part| <= |s| {
      assert s[..|part|][0] == s[0];
    }
  }

  /** The key is found where it is first possible: its first letter occurs neither in
      the indent nor in a comment marker. */
  lemma {:induction false} KeyIsFirst(lead: string, text: string)
    requires forall i :: 0 <= i < |lead| ==> lead[i] != 'i'
    ensures IndexOf(lead + (KEY + text), KEY) == Some(|lead|)
  {
    var s := lead + (KEY + text);
    if lead == "" {
      assert s == KEY + text && s[..|KEY|] == KEY;
    } else {
      assert s[0] == lead[0];
      OtherFirstLetter(s, KEY);
      assert s[1..] == lead[1..] + (KEY + text);
      KeyIsFirst(lead[1..], text);
    }
  }

  /** A comment that opens with the marker and ends with the matching tail. */
  predicate IsComment(marker: string, tail: string) {
    (marker == "# " && tail == "") || (marker == "<!-- " && tail == " -->")
  }

  function PinLine(indent: string, marker: string, pin: Pin, tail: string): string {
    indent + (marker + (KEY + (RecordFields(pin) + tail)))
  }

  lemma PinLineIsPinLine(indent: string, marker: string, pin: Pin, tail: string)
    requires IsIndent(indent) && IsComment(marker, tail)
    ensures IsPinLine(PinLine(indent, marker, pin, tail))
  {
    var text := marker + (KEY + (RecordFields(pin) + tail));
    TrimsIndent(indent, text);
    assert text[..|marker|] == marker && text[|marker|..] == KEY + (RecordFields(pin) + tail);
    assert HasPrefix(text[|marker|..], KEY);
  }

  lemma PinLineParses(indent: string, marker: string, pin: Pin, tail: string)
    requires IsIndent(indent) && IsComment(marker, tail)
    ensures ParseLine(PinLine(indent, marker, pin, tail)) == Some(pin)
  {
    var line, rest := PinLine(indent, marker, pin, tail), RecordFields(pin) + tail;
    var lead := indent + marker;
    assert line == lead + (KEY + rest);
    KeyIsFirst(lead, rest);
    assert line[|lead| + |KEY|..] == rest;
    RecordReadsBack(pin, tail);
  }

  lemma {:induction false} SkipsOtherLines(others: seq<string>, lines: seq<string>)
    requires forall i :: 0 <= i < |others| ==> !IsPinLine(others[i])
    ensures FindInLines(others + lines) == FindInLines(lines)
  {
    if others == [] {
      assert others + lines == lines;
    } else {
      assert (others + lines)[1..] == others[1..] + lines;
      SkipsOtherLines(others[1..], lines);
    }
  }

  predicate EndsLine(s: string) {
    s == "" || s[|s| - 1] == '\n'
  }

  lemma {:induction false} LineLengthOf(line: string, after: string)
    requires forall i :: 0 <= i < |line| ==> line[i] != '\n'
    requires after == "" || after[0] == '\n'
    ensures LineLength(line + after) == |line|
  {
    if line == "" {
      assert line + after == after;
    } else {
      assert (line + after)[1..] == line[1..] + after;
      LineLengthOf(line[1..], after);
    }
  }

  lemma LinesStep(line: string, rest: string)
    requires forall i :: 0 <= i < |line| ==> line[i] != '\n'
    ensures Lines(line + ("\n" + rest)) == [StripReturn(line)] + Lines(rest)
  {
    var s := line + ("\n" + rest);
    LineLengthOf(line, "\n" + rest);
    assert s[..|line|] == line;
    assert s[|line| + 1..] == rest;
  }

  lemma CutAt(s: string, n: nat)
    requires n < |s| && s[n] == '\n'
    ensures s == s[..n] + ("\n" + s[n + 1..])
  {
    assert [s[n]] == "\n";
  }

  lemma CutLine(before: string)
    requires before != "" && EndsLine(before)
    ensures
      var n := LineLength(before);
      n < |before| && before == before[..n] + ("\n" + before[n + 1..]) && EndsLine(before[n + 1..])
  {
    var n := LineLength(before);
    assert before[|before| - 1] == '\n';
    CutAt(before, n);
    LastOfTail(before, n + 1);
  }

  lemma LastOfTail(s: string, n: nat)
    requires n <= |s| && EndsLine(s)
    ensures EndsLine(s[n..])
  {
    if n < |s| {
      assert s[n..][|s[n..]| - 1] == s[|s| - 1];
    }
  }

  lemma RegroupLine(line: string, feed: string, rest: string, text: string)
    ensures line + (feed + rest) + text == line + (feed + (rest + text))
  {
  }

  lemma RegroupLines(a: seq<string>, b: seq<string>, c: seq<string>)
    ensures a + b + c == a + (b + c)
  {
  }

  /** The lines of a text that starts on a new line follow those before it. */
  lemma {:induction false} LinesSplit(before: string, text: string)
    requires EndsLine(before)
    ensures Lines(before + text) == Lines(before) + Lines(text)
    decreases |before|
  {
    if before == "" {
      assert before + text == text;
    } else {
      var n := LineLength(before);
      var line, rest := before[..n], before[n + 1..];
      CutLine(before);
      LinesStep(line, rest);
      LinesStep(line, rest + text);
      LinesSplit(rest, text);
      RegroupLine(line, "\n", rest, text);
      RegroupLines([StripReturn(line)], Lines(rest), Lines(text));
    }
  }

  /** A line ends with the text, with a line feed, or with both line characters. */
  predicate IsLineEnd(after: string) {
    after == "" || after[0] == '\n' || (|after| > 1 && after[0] == '\r' && after[1] == '\n')
  }

  lemma FirstLine(line: string, after: string)
    requires line != "" && line[|line| - 1] != '\r' && forall i :: 0 <= i < |line| ==> line[i] != '\n'
    requires IsLineEnd(after)
    ensures Lines(line + after) != [] && Lines(line + after)[0] == line
  {
    if after == "" {
      LineLengthOf(line, "");
      assert line + "" == line;
    } else if after[0] == '\n' {
      CutAt(after, 0);
      assert after[..0] == "" && "" + ("\n" + after[1..]) == "\n" + after[1..];
      LinesStep(line, after[1..]);
    } else {
      ReturnedLine(line, after);
    }
  }

  lemma ReturnedLine(line: string, after: string)
    requires line != "" && line[|line| - 1] != '\r' && forall i :: 0 <= i < |line| ==> line[i] != '\n'
    requires |after| > 1 && after[0] == '\r' && after[1] == '\n'
    ensures Lines(line + after) != [] && Lines(line + after)[0] == line
  {
    CutAt(after, 1);
    assert after[..1] == "\r";
    Associate(line, "\r", "\n" + after[2..]);
    LinesStep(line + "\r", after[2..]);
    assert (line + "\r")[..|line|] == line;
  }

  predicate Avoids(s: string, c: char) {
    forall i :: 0 <= i < |s| ==> s[i] != c
  }

  lemma AvoidTogether(a: string, b: string, c: char)
    requires Avoids(a, c) && Avoids(b, c)
    ensures Avoids(a + b, c)
  {
  }

  lemma LastOf(a: string, b: string)
    requires b != ""
    ensures (a + b)[|a + b| - 1] == b[|b| - 1]
  {
  }

  lemma FieldsAvoid(pin: Pin, c: char)
    requires c == '\n' || c == '-'
    ensures Avoids(RecordFields(pin), c)
  {
    EscapeIsTame(pin.config);
    DecimalRoundTrip(pin.uid);
    AvoidTogether("config=", Escape(pin.config), c);
    AvoidTogether("uid=", Decimal(pin.uid), c);
    AvoidTogether(" ", UidWord(pin), c);
    AvoidTogether(ConfigWord(pin), " " + UidWord(pin), c);
    AvoidTogether(" ", ConfigWord(pin) + (" " + UidWord(pin)), c);
  }

  lemma FieldsEnd(pin: Pin, tail: string)
    requires IsTail(tail)
    ensures (RecordFields(pin) + tail)[|RecordFields(pin) + tail| - 1] != '\r'
  {
    var config, uid := ConfigWord(pin), UidWord(pin);
    DecimalRoundTrip(pin.uid);
    LastOf("uid=", Decimal(pin.uid));
    LastOf(" ", uid);
    LastOf(config, " " + uid);
    LastOf(" ", config + (" " + uid));
    if tail == "" {
      assert RecordFields(pin) + tail == RecordFields(pin);
    } else {
      LastOf(RecordFields(pin), tail);
    }
  }

  /** No two dashes in a row, so the record is legal in an XML comment
      (section 2.5 of XML 1.0), and it is a single line. */
  lemma RecordIsLegalInComments(pin: Pin, i: nat)
    ensures i + 1 < |Record(pin)| ==> !(Record(pin)[i] == '-' && Record(pin)[i + 1] == '-')
    ensures Avoids(Record(pin), '\n')
  {
    RecordIsKeyAndFields(pin);
    FieldsAvoid(pin, '-');
    FieldsAvoid(pin, '\n');
    AvoidTogether(KEY, RecordFields(pin), '\n');
    DashesAreInKey(KEY, RecordFields(pin), i);
  }

  lemma DashesAreInKey(key: string, fields: string, i: nat)
    requires Avoids(fields, '-')
    requires forall j :: 0 <= j < |key| - 1 ==> !(key[j] == '-' && key[j + 1] == '-')
    ensures i + 1 < |key + fields| ==> !((key + fields)[i] == '-' && (key + fields)[i + 1] == '-')
  {
    if i + 1 < |key| {
      assert (key + fields)[i] == key[i] && (key + fields)[i + 1] == key[i + 1];
    } else if i + 1 < |key + fields| {
      assert (key + fields)[i + 1] == fields[i + 1 - |key|];
    }
  }

  lemma PinLineHasNoBreak(indent: string, marker: string, pin: Pin, tail: string)
    requires IsIndent(indent) && IsComment(marker, tail)
    ensures
      var line := PinLine(indent, marker, pin, tail);
      line != "" && line[|line| - 1] != '\r' && Avoids(line, '\n')
  {
    var end := RecordFields(pin) + tail;
    FieldsAvoid(pin, '\n');
    FieldsEnd(pin, tail);
    AvoidTogether(RecordFields(pin), tail, '\n');
    AvoidTogether(KEY, end, '\n');
    AvoidTogether(marker, KEY + end, '\n');
    AvoidTogether(indent, marker + (KEY + end), '\n');
    LastOf(KEY, end);
    LastOf(marker, KEY + end);
    LastOf(indent, marker + (KEY + end));
  }

  lemma RegroupPinLine(a: string, b: string, c: string, d: string, e: string)
    ensures a + b + (c + d) + e == a + (b + (c + (d + e)))
  {
  }

  /** For every path and uid: the record, in a `# ` or `<!-- ... -->` line that is the
      first comment line of its kind in the body, reads back as exactly that pin,
      whatever surrounds it. */
  lemma FindInvertsRecord(before: string, indent: string, marker: string, pin: Pin, tail: string, after: string)
    requires EndsLine(before) && forall i :: 0 <= i < |Lines(before)| ==> !IsPinLine(Lines(before)[i])
    requires IsIndent(indent) && IsComment(marker, tail) && IsLineEnd(after)
    ensures Find(before + (indent + marker + Record(pin) + tail + after)) == Some(pin)
  {
    var line := PinLine(indent, marker, pin, tail);
    RecordIsKeyAndFields(pin);
    RegroupPinLine(indent, marker, KEY, RecordFields(pin), tail);
    PinLineHasNoBreak(indent, marker, pin, tail);
    FirstLine(line, after);
    LinesSplit(before, line + after);
    SkipsOtherLines(Lines(before), Lines(line + after));
    PinLineIsPinLine(indent, marker, pin, tail);
    PinLineParses(indent, marker, pin, tail);
  }

  /** Nothing outside a comment line of the right kind yields a pin. */
  lemma {:induction false} OnlyCommentsPin(lines: seq<string>)
    ensures FindInLines(lines).Some? ==> exists i :: 0 <= i < |lines| && IsPinLine(lines[i])
                                                     && ParseLine(lines[i]) == FindInLines(lines)
  {
    if lines != [] && !IsPinLine(lines[0]) {
      OnlyCommentsPin(lines[1..]);
      if FindInLines(lines[1..]).Some? {
        var i :| 0 <= i < |lines[1..]| && IsPinLine(lines[1..][i]) && ParseLine(lines[1..][i]) == FindInLines(lines[1..]);
        assert lines[i + 1] == lines[1..][i];
      }
    }
  }
}
