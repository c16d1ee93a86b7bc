/** The bytes a submission signature covers.  Every encoder here takes the text that follows it, so
    that a signed text is one expression and can be read back from the left. */
module Signing {
  import opened Prelude
  import opened Lists

  datatype Payload = Payload(labId: string, timestamp: int, nonce: string, files: seq<string>, contentHash: string)

  // timestamp counts nanoseconds; UnixMilli rounds down.
  function Millis(timestamp: int): int { timestamp / 1_000_000 }

  // ----- JSON strings, as encoding/json writes them (section 7 of RFC 8259, and more escapes than it needs)

  const HEX := "0123456789abcdef"

  predicate HasUnicodeEscape(c: char) {
    c < ' ' || c == '<' || c == '>' || c == '&' || c == '\U{2028}' || c == '\U{2029}'
  }

  function Hex4(n: nat): string
    requires n < 0x1_0000
  {
    [HEX[n / 16 / 16 / 16], HEX[n / 16 / 16 % 16], HEX[n / 16 % 16], HEX[n % 16]]
  }

  // The letter of a two-character escape, or a blank.
  function Letter(c: char): char {
    if c == '"' || c == '\\' then c
    else if c == '\U{0008}' then 'b' else if c == '\U{000C}' then 'f'
    else if c == '\n' then 'n' else if c == '\r' then 'r' else if c == '\t' then 't'
    else ' '
  }

  function Escape(c: char): string {
    if Letter(c) != ' ' then ['\\', Letter(c)]
    else if HasUnicodeEscape(c) then ['\\', 'u'] + Hex4(c as int)
    else [c]
  }

  function Body(s: string, rest: string): string {
    if s == "" then rest else Escape(s[0]) + Body(s[1..], rest)
  }

  function Quote(s: string, rest: string): string { "\"" + Body(s, "\"" + rest) }

  // ----- numbers

  function Digits(n: nat, rest: string): string {
    if n < 10 then [HEX[n]] + rest else Digits(n / 10, [HEX[n % 10]] + rest)
  }

  function Decimal(n: int, rest: string): string {
    if n < 0 then "-" + Digits(-n, rest) else Digits(n, rest)
  }

  // ----- the canonical payload

  function Items(files: seq<string>, rest: string): string
    requires files != []
  {
    Quote(files[0], if |files| == 1 then "]" + rest else "," + Items(files[1..], rest))
  }

  // A copy of no files is a nil slice.
  function FileList(files: seq<string>, rest: string): string {
    if files == [] then "null" + rest else "[" + Items(files, rest)
  }

  function Canonical(p: Payload): string {
    "{\"content_hash\":" + Quote(p.contentHash,
    ",\"files\":" + FileList(p.files,
    ",\"lab_id\":" + Quote(p.labId,
    ",\"nonce\":" + Quote(p.nonce,
    ",\"timestamp_ms\":" + Decimal(Millis(p.timestamp), "}")))))
  }

  function SigningText(p: Payload): string { Canonical(p.(files := Sort(p.files, Below))) }

  // SigningBytes: a copy of the file names is sorted in place, then everything is written out.
  method SigningBytes(p: Payload) returns (text: string)
    ensures text == SigningText(p)
  {
    var files := new string[|p.files|](i requires 0 <= i < |p.files| => p.files[i]);
    assert files[..] == p.files;
    SortInPlace(files, Below);
    return Canonical(p.(files := files[..]));
  }

  // ----- a reader of JSON, for the objects with strings, integers and lists of strings (RFC 8259)

  datatype Json = Null | Text(text: string) | Number(number: int) | List(items: seq<string>)

  type Read<T> = Option<(T, string)>   // what was read, and the text after it

  function HexValue(c: char): Option<nat> {
    if '0' <= c <= '9' then Some(c as int - '0' as int)
    else if 'a' <= c <= 'f' then Some(c as int - 'a' as int + 10)
    else if 'A' <= c <= 'F' then Some(c as int - 'A' as int + 10)
    else None
  }

  // Four hexadecimal digits, of a character outside the surrogates.
  function ReadHex4(t: string): (r: Read<char>)
    ensures r.Some? ==> |r.value.1| < |t|
  {
    if |t| < 4 || HexValue(t[0]).None? || HexValue(t[1]).None? || HexValue(t[2]).None? || HexValue(t[3]).None?
    then None
    else
      var v := HexValue(t[0]).value * 4096 + HexValue(t[1]).value * 256 + HexValue(t[2]).value * 16
               + HexValue(t[3]).value;
      if v < 0xD800 || 0xE000 <= v < 0x1_0000 then Some((v as char, t[4..])) else None
  }

  // What follows a backslash.
  function ReadEscape(t: string): (r: Read<char>)
    ensures r.Some? ==> |r.value.1| < |t|
  {
    if t == "" then None
    else
      match t[0]
      case '"' => Some(('"', t[1..]))
      case '\\' => Some(('\\', t[1..]))
      case '/' => Some(('/', t[1..]))
      case 'b' => Some(('\U{0008}', t[1..]))
      case 'f' => Some(('\U{000C}', t[1..]))
      case 'n' => Some(('\n', t[1..]))
      case 'r' => Some(('\r', t[1..]))
      case 't' => Some(('\t', t[1..]))
      case 'u' => ReadHex4(t[1..])
      case _ => None
  }

  function Before(c: char, r: Read<string>): Read<string> {
    if r.None? then None else Some(([c] + r.value.0, r.value.1))
  }

  // What follows an opening quote, up to the closing one.
  function ReadBody(t: string): (r: Read<string>)
    ensures r.Some? ==> |r.value.1| < |t|
    decreases |t|
  {
    if t == "" || t[0] < ' ' then None
    else if t[0] == '"' then Some(("", t[1..]))
    else if t[0] != '\\' then Before(t[0], ReadBody(t[1..]))
    else
      var e := ReadEscape(t[1..]);
      if e.None? then None else Before(e.value.0, ReadBody(e.value.1))
  }

  function ReadString(t: string): (r: Read<string>)
    ensures r.Some? ==> |r.value.1| < |t|
  {
    if t == "" || t[0] != '"' then None else ReadBody(t[1..])
  }

  // What follows an opening bracket, up to the closing one; at least one item.
  function ReadItems(t: string): (r: Read<seq<string>>)
    ensures r.Some? ==> |r.value.1| < |t|
    decreases |t|
  {
    var s := ReadString(t);
    if s.None? || s.value.1 == "" then None
    else if s.value.1[0] == ']' then Some(([s.value.0], s.value.1[1..]))
    else if s.value.1[0] != ',' then None
    else
      var more := ReadItems(s.value.1[1..]);
      if more.None? then None else Some(([s.value.0] + more.value.0, more.value.1))
  }

  predicate IsDigit(c: char) { '0' <= c <= '9' }

  // The number a text of decimal digits denotes.
  function Value(s: string): int {
    if s == "" then 0 else Value(s[..|s| - 1]) * 10 + (s[|s| - 1] as int - '0' as int)
  }

  // The digits at the beginning.
  function Leading(t: string): (n: nat)
    ensures n <= |t|
  {
    if t == "" || !IsDigit(t[0]) then 0 else 1 + Leading(t[1..])
  }

  // Digits without a zero in front.
  function ReadDigits(t: string): (r: Read<int>)
    ensures r.Some? ==> |r.value.1| < |t|
  {
    if Leading(t) == 0 || (t[0] == '0' && Leading(t) > 1) then None
    else Some((Value(t[..Leading(t)]), t[Leading(t)..]))
  }

  function ReadNumber(t: string): (r: Read<int>)
    ensures r.Some? ==> |r.value.1| < |t|
  {
    if t == "" then None
    else if t[0] != '-' then ReadDigits(t)
    else
      var r := ReadDigits(t[1..]);
      if r.None? then None else Some((-r.value.0, r.value.1))
  }

  function ReadValue(t: string): (r: Read<Json>)
    ensures r.Some? ==> |r.value.1| < |t|
  {
    if t == "" then None
    else if t[0] == '"' then
      var r := ReadString(t);
      if r.None? then None else Some((Text(r.value.0), r.value.1))
    else if t[0] == '[' then
      var r := ReadItems(t[1..]);
      if r.None? then None else Some((List(r.value.0), r.value.1))
    else if "null" <= t then Some((Null, t[4..]))
    else
      var r := ReadNumber(t);
      if r.None? then None else Some((Number(r.value.0), r.value.1))
  }

  // The members of an object, up to the closing brace; at least one.
  function ReadMembers(t: string): (r: Read<seq<(string, Json)>>)
    ensures r.Some? ==> |r.value.1| < |t|
    decreases |t|
  {
    var name := ReadString(t);
    if name.None? || name.value.1 == "" || name.value.1[0] != ':' then None
    else
      var v := ReadValue(name.value.1[1..]);
      if v.None? || v.value.1 == "" then None
      else if v.value.1[0] == '}' then Some(([(name.value.0, v.value.0)], v.value.1[1..]))
      else if v.value.1[0] != ',' then None
      else
        var more := ReadMembers(v.value.1[1..]);
        if more.None? then None else Some(([(name.value.0, v.value.0)] + more.value.0, more.value.1))
  }

  // The members of the object that the whole text is.
  function ReadObject(t: string): Option<seq<(string, Json)>> {
    if t == "" || t[0] != '{' then None
    else
      var r := ReadMembers(t[1..]);
      if r.None? || r.value.1 != "" then None else Some(r.value.0)
  }

  // ----- what the encoders write is read back

  lemma Hex4Read(n: nat, rest: string)
    requires n < 0xD800
    ensures ReadHex4(Hex4(n) + rest) == Some((n as char, rest))
  {
    var t := Hex4(n) + rest;
    assert t[0] == Hex4(n)[0] && t[1] == Hex4(n)[1] && t[2] == Hex4(n)[2] && t[3] == Hex4(n)[3] && t[4..] == rest;
    HexRead(n / 16 / 16 / 16);
    HexRead(n / 16 / 16 % 16);
    HexRead(n / 16 % 16);
    HexRead(n % 16);
  }

  lemma HexRead(d: nat)
    requires d < 16
    ensures HexValue(HEX[d]) == Some(d)
  {}

  /** A character is written as itself unless it is a control character, a quote, a backslash or one of
      those that are dangerous in a web page. */
  lemma EscapesExactly(c: char)
    ensures Escape(c) == [c] <==> c >= ' ' && c !in {'"', '\\', '<', '>', '&', '\U{2028}', '\U{2029}'}
  {}

  lemma LetterRead(c: char, rest: string)
    requires Letter(c) != ' '
    ensures ReadEscape([Letter(c)] + rest) == Some((c, rest))
  {
    assert ([Letter(c)] + rest)[1..] == rest;
  }

  lemma UnicodeRead(c: char, rest: string)
    requires HasUnicodeEscape(c)
    ensures ReadEscape(['u'] + (Hex4(c as int) + rest)) == Some((c, rest))
  {
    hide Hex4, ReadHex4;
    assert (['u'] + (Hex4(c as int) + rest))[1..] == Hex4(c as int) + rest;
    Hex4Read(c as int, rest);
  }

  lemma EscapeRead(c: char, rest: string)
    ensures ReadBody(Escape(c) + rest) == Before(c, ReadBody(rest))
  {
    hide ReadEscape, Hex4;
    var t := Escape(c) + rest;
    if Letter(c) != ' ' {
      assert t[0] == '\\' && t[1..] == [Letter(c)] + rest;
      LetterRead(c, rest);
    } else if HasUnicodeEscape(c) {
      assert t[0] == '\\' && t[1..] == ['u'] + (Hex4(c as int) + rest);
      UnicodeRead(c, rest);
    } else {
      assert t[0] == c && t[1..] == rest;
    }
  }

  lemma {:induction false} BodyRead(s: string, rest: string)
    ensures ReadBody(Body(s, "\"" + rest)) == Some((s, rest))
  {
    if s == "" {
      assert ("\"" + rest)[1..] == rest;
    } else {
      BodyRead(s[1..], rest);
      EscapeRead(s[0], Body(s[1..], "\"" + rest));
      assert [s[0]] + s[1..] == s;
    }
  }

  /** An encoded string is read back, whatever follows it. */
  lemma QuoteRead(s: string, rest: string)
    ensures ReadString(Quote(s, rest)) == Some((s, rest))
  {
    assert Quote(s, rest)[1..] == Body(s, "\"" + rest);
    BodyRead(s, rest);
  }

  lemma {:induction false} ItemsRead(files: seq<string>, rest: string)
    requires files != []
    ensures ReadItems(Items(files, rest)) == Some((files, rest))
  {
    var after := if |files| == 1 then "]" + rest else "," + Items(files[1..], rest);
    QuoteRead(files[0], after);
    if |files| == 1 {
      assert after[1..] == rest && [files[0]] == files;
    } else {
      assert after[1..] == Items(files[1..], rest) && [files[0]] + files[1..] == files;
      ItemsRead(files[1..], rest);
    }
  }

  lemma {:induction false} LeadingDigits(u: string, c: char, rest: string)
    requires !IsDigit(c) && forall i | 0 <= i < |u| :: IsDigit(u[i])
    ensures Leading(u + ([c] + rest)) == |u|
  {
    if u != "" {
      assert (u + ([c] + rest))[1..] == u[1..] + ([c] + rest);
      LeadingDigits(u[1..], c, rest);
    }
  }

  // The digits alone, and what follows them.
  lemma {:induction false} DigitsApart(n: nat, rest: string)
    ensures Digits(n, rest) == Digits(n, "") + rest && Digits(n, "") != ""
  {
    if n >= 10 {
      DigitsApart(n / 10, [HEX[n % 10]] + rest);
      DigitsApart(n / 10, [HEX[n % 10]]);
      assert [HEX[n % 10]] + "" == [HEX[n % 10]];
    }
  }

  lemma {:induction false} DigitsValue(n: nat)
    ensures Value(Digits(n, "")) == n && forall i | 0 <= i < |Digits(n, "")| :: IsDigit(Digits(n, "")[i])
    ensures n > 0 ==> Digits(n, "")[0] != '0'
  {
    if n < 10 {
      ReadDigit("", n);
      assert Digits(n, "") == "" + [HEX[n]];
    } else {
      DigitsValue(n / 10);
      DigitsApart(n / 10, [HEX[n % 10]]);
      assert [HEX[n % 10]] + "" == [HEX[n % 10]];
      ReadDigit(Digits(n / 10, ""), n % 10);
    }
  }

  lemma ReadDigit(s: string, d: nat)
    requires d < 10
    ensures Value(s + [HEX[d]]) == Value(s) * 10 + d && IsDigit(HEX[d]) && (d > 0 ==> HEX[d] != '0')
  {
    assert (s + [HEX[d]])[..|s|] == s;
  }

  lemma DigitsRead(n: nat, c: char, rest: string)
    requires !IsDigit(c)
    ensures ReadDigits(Digits(n, [c] + rest)) == Some((n, [c] + rest)) && Digits(n, [c] + rest)[0] != '-'
  {
    hide Value;
    var u, t := Digits(n, ""), Digits(n, [c] + rest);
    DigitsApart(n, [c] + rest);
    DigitsValue(n);
    LeadingDigits(u, c, rest);
    assert t[0] == u[0] && t[..|u|] == u && t[|u|..] == [c] + rest;
  }

  /** An encoded number is read back, if what follows does not begin with a digit. */
  lemma DecimalRead(n: int, c: char, rest: string)
    requires !IsDigit(c)
    ensures ReadNumber(Decimal(n, [c] + rest)) == Some((n, [c] + rest))
  {
    hide ReadDigits, Digits;
    var m: nat := if n < 0 then -n else n;
    DigitsRead(m, c, rest);
    if n < 0 {
      assert Decimal(n, [c] + rest)[1..] == Digits(m, [c] + rest);
    }
  }

  // ----- the signed text is read back

  function FilesValue(files: seq<string>): Json { if files == [] then Null else List(files) }

  lemma FileListRead(files: seq<string>, rest: string)
    ensures ReadValue(FileList(files, rest)) == Some((FilesValue(files), rest))
  {
    if files == [] {
      assert ("null" + rest)[4..] == rest && ("null" + rest)[0] == 'n';
    } else {
      assert FileList(files, rest)[1..] == Items(files, rest);
      ItemsRead(files, rest);
    }
  }

  lemma TextRead(s: string, rest: string)
    ensures ReadValue(Quote(s, rest)) == Some((Text(s), rest))
  {
    QuoteRead(s, rest);
  }

  lemma MillisRead(n: int)
    ensures ReadValue(Decimal(n, "}")) == Some((Number(n), "}"))
  {
    assert ['}'] + "" == "}";
    DecimalRead(n, '}', "");
    var t, m: nat := Decimal(n, "}"), if n < 0 then -n else n;
    DigitsApart(m, "}");
    DigitsValue(m);
    assert t[0] == if n < 0 then '-' else Digits(m, "")[0];
  }

  // One member: its name, a colon and its value, and what comes after.
  lemma MemberRead(name: string, text: string, value: Json, after: string, next: seq<(string, Json)>, rest: string)
    requires ReadString(text) == Some((name, ":" + after))
    requires ReadValue(after).Some? && ReadValue(after).value.0 == value
    requires ReadValue(after).value.1 == if next == [] then "}" else "," + rest
    requires next != [] ==> ReadMembers(rest) == Some((next, ""))
    ensures ReadMembers(text) == Some(([(name, value)] + next, ""))
  {
    assert (":" + after)[1..] == after;
    if next == [] {
      assert "}"[1..] == "" && [(name, value)] + next == [(name, value)];
    } else {
      assert ("," + rest)[1..] == rest;
    }
  }

  lemma {:induction false} PlainRead(name: string, rest: string)
    requires forall i | 0 <= i < |name| :: name[i] >= ' ' && name[i] != '"' && name[i] != '\\'
    ensures ReadBody(name + ("\"" + rest)) == Some((name, rest))
  {
    if name == "" {
      assert name + ("\"" + rest) == "\"" + rest && ("\"" + rest)[1..] == rest;
    } else {
      assert (name + ("\"" + rest))[1..] == name[1..] + ("\"" + rest) && [name[0]] + name[1..] == name;
      PlainRead(name[1..], rest);
    }
  }

  // A member name in front of its value.
  lemma NameRead(name: string, prefix: string, after: string)
    requires prefix == "\"" + name + "\":"
    requires forall i | 0 <= i < |name| :: name[i] >= ' ' && name[i] != '"' && name[i] != '\\'
    ensures ReadString(prefix + after) == Some((name, ":" + after))
  {
    var t := prefix + after;
    assert t[1..] == name + ("\"" + (":" + after));
    PlainRead(name, ":" + after);
  }

  // A member with a text for value, and the members after it.
  lemma TextMember(name: string, prefix: string, s: string, next: seq<(string, Json)>, rest: string)
    requires prefix == "\"" + name + "\":" && next != [] && ReadMembers(rest) == Some((next, ""))
    requires forall i | 0 <= i < |name| :: name[i] >= ' ' && name[i] != '"' && name[i] != '\\'
    ensures ReadMembers(prefix + Quote(s, "," + rest)) == Some(([(name, Text(s))] + next, ""))
  {
    hide ReadString, ReadValue, ReadMembers, Quote;
    var v := Quote(s, "," + rest);
    TextRead(s, "," + rest);
    NameRead(name, prefix, v);
    MemberRead(name, prefix + v, Text(s), v, next, rest);
  }

  // The text from a member on.
  function FromTime(p: Payload): string { "\"timestamp_ms\":" + Decimal(Millis(p.timestamp), "}") }

  function FromNonce(p: Payload): string { "\"nonce\":" + Quote(p.nonce, "," + FromTime(p)) }

  function FromLab(p: Payload): string { "\"lab_id\":" + Quote(p.labId, "," + FromNonce(p)) }

  function FromFiles(p: Payload): string { "\"files\":" + FileList(p.files, "," + FromLab(p)) }

  lemma TimeRead(p: Payload)
    ensures ReadMembers(FromTime(p)) == Some(([("timestamp_ms", Number(p.timestamp / 1_000_000))], ""))
  {
    hide ReadString, ReadValue, ReadMembers, Decimal;
    var v := Decimal(Millis(p.timestamp), "}");
    MillisRead(Millis(p.timestamp));
    NameRead("timestamp_ms", "\"timestamp_ms\":", v);
    MemberRead("timestamp_ms", FromTime(p), Number(p.timestamp / 1_000_000), v, [], "");
    var time := [("timestamp_ms", Number(p.timestamp / 1_000_000))];
    assert time + [] == time;
  }

  lemma FilesRead(p: Payload, next: seq<(string, Json)>)
    requires next != [] && ReadMembers(FromLab(p)) == Some((next, ""))
    ensures ReadMembers(FromFiles(p)) == Some(([("files", FilesValue(p.files))] + next, ""))
  {
    hide ReadString, ReadValue, ReadMembers, FileList, FilesValue, FromLab;
    var v := FileList(p.files, "," + FromLab(p));
    FileListRead(p.files, "," + FromLab(p));
    NameRead("files", "\"files\":", v);
    MemberRead("files", FromFiles(p), FilesValue(p.files), v, next, FromLab(p));
  }

  lemma CanonicalText(p: Payload)
    ensures Canonical(p) == "{" + ("\"content_hash\":" + Quote(p.contentHash, "," + FromFiles(p)))
  {
    hide Quote, Decimal, FileList;
    assert ",\"timestamp_ms\":" + Decimal(Millis(p.timestamp), "}") == "," + FromTime(p);
    assert ",\"nonce\":" + Quote(p.nonce, "," + FromTime(p)) == "," + FromNonce(p);
    assert ",\"lab_id\":" + Quote(p.labId, "," + FromNonce(p)) == "," + FromLab(p);
    assert ",\"files\":" + FileList(p.files, "," + FromLab(p)) == "," + FromFiles(p);
  }

  lemma CanonicalRead(p: Payload)
    ensures ReadObject(Canonical(p)) == Some([
              ("content_hash", Text(p.contentHash)), ("files", FilesValue(p.files)), ("lab_id", Text(p.labId)),
              ("nonce", Text(p.nonce)), ("timestamp_ms", Number(p.timestamp / 1_000_000))])
  {
    hide ReadMembers, Quote, FilesValue, FromFiles, FromLab, FromNonce, FromTime, Canonical;
    var time := [("timestamp_ms", Number(p.timestamp / 1_000_000))];
    var nonce := [("nonce", Text(p.nonce))] + time;
    var lab := [("lab_id", Text(p.labId))] + nonce;
    var files := [("files", FilesValue(p.files))] + lab;
    TimeRead(p);
    assert ReadMembers(FromNonce(p)) == Some((nonce, "")) by {
      TextMember("nonce", "\"nonce\":", p.nonce, time, FromTime(p));
      NonceText(p);
    }
    assert ReadMembers(FromLab(p)) == Some((lab, "")) by {
      TextMember("lab_id", "\"lab_id\":", p.labId, nonce, FromNonce(p));
      LabText(p);
    }
    FilesRead(p, lab);
    TextMember("content_hash", "\"content_hash\":", p.contentHash, files, FromFiles(p));
    CanonicalText(p);
    var text := "\"content_hash\":" + Quote(p.contentHash, "," + FromFiles(p));
    assert ("{" + text)[1..] == text;
    assert [("content_hash", Text(p.contentHash))] + files == [
        ("content_hash", Text(p.contentHash)), ("files", FilesValue(p.files)), ("lab_id", Text(p.labId)),
        ("nonce", Text(p.nonce)), ("timestamp_ms", Number(p.timestamp / 1_000_000))];
  }

  lemma NonceText(p: Payload)
    ensures FromNonce(p) == "\"nonce\":" + Quote(p.nonce, "," + FromTime(p))
  {}

  lemma LabText(p: Payload)
    ensures FromLab(p) == "\"lab_id\":" + Quote(p.labId, "," + FromNonce(p))
  {}

  /** The signed text is one JSON object: a reader after RFC 8259 finds in it, in this order and nothing
      else, the content hash, the names of the files in ascending order, or null for none, the lab,
      the nonce and the time in whole milliseconds. */
  lemma SigningTextIsJson(p: Payload)
    ensures ReadObject(SigningText(p)) == Some([
              ("content_hash", Text(p.contentHash)),
              ("files", if p.files == [] then Null else List(Sort(p.files, Below))),
              ("lab_id", Text(p.labId)), ("nonce", Text(p.nonce)),
              ("timestamp_ms", Number(p.timestamp / 1_000_000))])
  {
    hide ReadObject;
    SortCounts(p.files, Below);
    Rearranged(p.files, Sort(p.files, Below));
    CanonicalRead(p.(files := Sort(p.files, Below)));
  }

  /** A signature covers exactly what it should: two payloads have the same signing bytes if and only
      if lab, nonce, content hash, timestamp in milliseconds and the multiset of file names agree. */
  lemma SigningIsInjective(p: Payload, q: Payload)
    ensures SigningText(p) == SigningText(q) <==>
            && p.labId == q.labId && p.nonce == q.nonce && p.contentHash == q.contentHash
            && p.timestamp / 1_000_000 == q.timestamp / 1_000_000 && multiset(p.files) == multiset(q.files)
  {
    SortCounts(p.files, Below);
    SortCounts(q.files, Below);
    if SigningText(p) == SigningText(q) {
      hide ReadObject, SigningText;
      SigningTextIsJson(p);
      SigningTextIsJson(q);
    }
    if multiset(p.files) == multiset(q.files) {
      BelowTotal(p.files);
      SortForgetsOrder(p.files, q.files, Below);
    }
  }
}
