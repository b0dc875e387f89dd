/** What `json.Marshal` makes of a message: section 7 of RFC 8259, as Go's encoding/json follows it. */
module Json {
  import opened Numbers
  import opened Options
  import RingSpec

  const HEX := "0123456789abcdef"

  /** U+2028, which is a line end to JavaScript; U+2029 is another. */
  const LINE_SEPARATOR := 0x2028

  predicate IsPlain(c: char) {
    && ' ' <= c && c != '"' && c != '\\' && c != '<' && c != '>' && c != '&'
    && !(LINE_SEPARATOR <= c as int <= LINE_SEPARATOR + 1)
  }

  /** The letter that stands for `c` in a two-character escape, and back. */
  function ShortEscape(c: char): Option<char> {
    if c == '"' || c == '\\' then Some(c)
    else if c as int == 8 then Some('b')
    else if c as int == 12 then Some('f')
    else if c == '\n' then Some('n')
    else if c == '\r' then Some('r')
    else if c == '\t' then Some('t')
    else None
  }

  function ShortMeaning(e: char): Option<char> {
    if e == '"' || e == '\\' then Some(e)
    else if e == 'b' then Some(8 as char)
    else if e == 'f' then Some(12 as char)
    else if e == 'n' then Some('\n')
    else if e == 'r' then Some('\r')
    else if e == 't' then Some('\t')
    else None
  }

  function HexEscape(code: nat): string
    requires code < 0x1_0000
  {
    var c := code / 16;
    var b := c / 16;
    ['\\', 'u', HEX[b / 16], HEX[b % 16], HEX[c % 16], HEX[code % 16]]
  }

  function EscapedChar(c: char): string {
    if IsPlain(c) then [c]
    else match ShortEscape(c)
      case Some(e) => ['\\', e]
      case None => HexEscape(c as int)
  }

  function Escaped(s: string): string {
    if s == "" then "" else EscapedChar(s[0]) + Escaped(s[1..])
  }

  function Quoted(s: string): string {
    "\"" + (Escaped(s) + "\"")
  }

  // ---------- reading a string back ----------

  function HexValue(c: char): Option<nat> {
    if '0' <= c <= '9' then Some(c as int - '0' as int)
    else if 'a' <= c <= 'f' then Some(c as int - 'a' as int + 10)
    else None
  }

  /** The character at the head of `s`, and how much of `s` spells it. Surrogates are not read. */
  function ReadChar(s: string): Option<(char, nat)>
    requires s != ""
  {
    if s[0] != '\\' then (if s[0] < ' ' then None else Some((s[0], 1)))
    else if |s| < 2 then None
    else match ShortMeaning(s[1])
      case Some(c) => Some((c, 2))
      case None => if |s| < 6 || s[1] != 'u' then None else ReadCode(s[2..6])
  }

  function ReadCode(digits: string): Option<(char, nat)>
    requires |digits| == 4
  {
    match (HexValue(digits[0]), HexValue(digits[1]), HexValue(digits[2]), HexValue(digits[3]))
    case (Some(a), Some(b), Some(c), Some(d)) =>
      var code := 4096 * a + 256 * b + 16 * c + d;
      if code < 0xD800 || 0xE000 <= code < 0x1_0000 then Some((code as char, 6)) else None
    case _ => None
  }

  /** Reads up to the closing quote; also what comes after it. */
  function Read(s: string): (r: Option<(string, string)>)
    ensures r.Some? ==> |r.value.1| < |s|
  {
    if s == "" then None
    else if s[0] == '"' then Some(("", s[1..]))
    else
      match ReadChar(s)
      case None => None
      case Some((c, used)) =>
        if used == 0 || used > |s| then None
        else
          match Read(s[used..])
          case None => None
          case Some((text, rest)) => Some(([c] + text, rest))
  }

  lemma HexRoundTrip(d: nat)
    requires d < 16
    ensures HexValue(HEX[d]) == Some(d)
  {
  }

  lemma ReadHexEscape(code: nat, tail: string)
    requires code < 0xD800
    ensures ReadChar(HexEscape(code) + tail) == Some((code as char, 6))
  {
    var s := HexEscape(code) + tail;
    var c := code / 16;
    var b := c / 16;
    HexRoundTrip(b / 16);
    HexRoundTrip(b % 16);
    HexRoundTrip(c % 16);
    HexRoundTrip(code % 16);
    assert s[2..6] == [HEX[b / 16], HEX[b % 16], HEX[c % 16], HEX[code % 16]];
    assert code == 16 * c + code % 16 && c == 16 * b + c % 16 && b == 16 * (b / 16) + b % 16;
  }

  lemma ReadEscapedChar(c: char, tail: string)
    ensures EscapedChar(c) != "" && EscapedChar(c)[0] != '"'
    ensures ReadChar(EscapedChar(c) + tail) == Some((c, |EscapedChar(c)|))
  {
    if !IsPlain(c) && ShortEscape(c).None? {
      ReadHexEscape(c as int, tail);
    }
  }

  lemma ReadOneMore(head: string, c: char, tail: string, text: string, rest: string)
    requires head != "" && head[0] != '"' && ReadChar(head + tail) == Some((c, |head|))
    requires Read(tail) == Some((text, rest))
    ensures Read(head + tail) == Some(([c] + text, rest))
  {
    assert (head + tail)[0] == head[0] && (head + tail)[|head|..] == tail;
  }

  /** The reader of a quoted string gets the string, and stops at its end. */
  lemma {:induction false} StringRoundTrip(s: string, rest: string)
    ensures Read(Escaped(s) + "\"" + rest) == Some((s, rest))
  {
    if s == "" {
      assert Escaped(s) + "\"" + rest == "\"" + rest;
    } else {
      var head, tail := EscapedChar(s[0]), Escaped(s[1..]) + "\"" + rest;
      assert Escaped(s) + "\"" + rest == head + tail;
      StringRoundTrip(s[1..], rest);
      ReadEscapedChar(s[0], tail);
      ReadOneMore(head, s[0], tail, s[1..], rest);
      assert [s[0]] + s[1..] == s;
    }
  }

  // ---------- objects ----------

  datatype Field = Text(name: string, text: string) | Number(name: string, number: int)

  /** A struct as json.Marshal sees it: its fields in order, empty `omitempty` ones and `json:"-"` ones
      left out. The fields of types.Message are eight texts and one number. */
  type Object = seq<Field>

  function Decimal(n: int): string {
    if n < 0 then "-" + RingSpec.Itoa(-n) else RingSpec.Itoa(n)
  }

  function Value(f: Field): string {
    match f
    case Text(_, text) => Quoted(text)
    case Number(_, n) => Decimal(n)
  }

  function Member(f: Field): string {
    Quoted(f.name) + ":" + Value(f)
  }

  function Listed(fields: Object): string {
    if fields == [] then ""
    else if |fields| == 1 then Member(fields[0])
    else Member(fields[0]) + "," + Listed(fields[1..])
  }

  function Marshalled(o: Object): string {
    "{" + Listed(o) + "}"
  }

  // ---------- reading an object back ----------

  function ReadInteger(s: string): (r: Option<(int, string)>)
    ensures r.Some? ==> |r.value.1| <= |s|
  {
    if s == "" then None
    else if s[0] == '-' then (var read := ReadDigits(0, s[1..]); Some((0 - read.0, read.1)))
    else if IsDigit(s[0]) then Some(ReadDigits(0, s))
    else None
  }

  function ReadValue(name: string, s: string): (r: Option<(Field, string)>)
    ensures r.Some? ==> |r.value.1| <= |s|
  {
    if s != "" && s[0] == '"' then
      match Read(s[1..])
      case Some((text, rest)) => Some((Text(name, text), rest))
      case None => None
    else
      match ReadInteger(s)
      case Some((n, rest)) => Some((Number(name, n), rest))
      case None => None
  }

  function ReadMember(s: string): (r: Option<(Field, string)>)
    ensures r.Some? ==> |r.value.1| < |s|
  {
    if s == "" || s[0] != '"' then None
    else
      match Read(s[1..])
      case Some((name, rest)) => if rest != "" && rest[0] == ':' then ReadValue(name, rest[1..]) else None
      case None => None
  }

  /** Reads members up to the closing brace, which must be the end. */
  function ReadMembers(s: string): Option<Object>
    decreases |s|
  {
    match ReadMember(s)
    case None => None
    case Some((f, rest)) =>
      if rest == "}" then Some([f])
      else if rest == "" || rest[0] != ',' then None
      else
        match ReadMembers(rest[1..])
        case Some(fields) => Some([f] + fields)
        case None => None
  }

  /** The object that `s` is the text of. */
  function ReadObject(s: string): Option<Object> {
    if s == "{}" then Some([])
    else if s == "" || s[0] != '{' then None
    else ReadMembers(s[1..])
  }

  predicate StartsWithDigit(s: string) {
    s != "" && IsDigit(s[0])
  }

  lemma TailOf(c: char, s: string, rest: string)
    ensures ([c] + s + rest)[1..] == s + rest
  {
  }

  lemma IntegerRoundTrip(n: int, rest: string)
    requires !StartsWithDigit(rest)
    ensures Decimal(n) != "" && Decimal(n)[0] != '"'
    ensures ReadInteger(Decimal(n) + rest) == Some((n, rest))
  {
    if n < 0 {
      RingSpec.ItoaReads(-n, rest);
      TailOf('-', RingSpec.Itoa(-n), rest);
      assert (Decimal(n) + rest)[0] == '-';
    } else {
      RingSpec.ItoaReads(n, rest);
      assert (Decimal(n) + rest)[0] == Decimal(n)[0];
    }
  }

  lemma QuotedReads(s: string, rest: string)
    ensures Quoted(s) != "" && Quoted(s)[0] == '"'
    ensures Read((Quoted(s) + rest)[1..]) == Some((s, rest))
  {
    StringRoundTrip(s, rest);
    TailOf('"', Escaped(s) + "\"", rest);
  }

  lemma ValueRoundTrip(f: Field, rest: string)
    requires !StartsWithDigit(rest)
    ensures ReadValue(f.name, Value(f) + rest) == Some((f, rest))
  {
    match f
    case Text(_, text) => QuotedReads(text, rest);
    case Number(_, n) => IntegerRoundTrip(n, rest);
  }

  lemma MemberReads(name: string, value: string)
    ensures ReadMember(Quoted(name) + (":" + value)) == ReadValue(name, value)
  {
    var rest := ":" + value;
    QuotedReads(name, rest);
    assert rest[0] == ':' && rest[1..] == value;
  }

  lemma Regrouped(a: string, b: string, c: string, d: string)
    ensures a + b + c + d == a + (b + (c + d))
  {
  }

  lemma MemberRoundTrip(f: Field, rest: string)
    requires !StartsWithDigit(rest)
    ensures ReadMember(Member(f) + rest) == Some((f, rest))
  {
    Regrouped(Quoted(f.name), ":", Value(f), rest);
    MemberReads(f.name, Value(f) + rest);
    ValueRoundTrip(f, rest);
  }

  lemma MembersRead(f: Field, rest: string, fields: Object)
    requires ReadMembers(rest) == Some(fields)
    ensures ReadMembers(Member(f) + ("," + rest)) == Some([f] + fields)
  {
    var s := "," + rest;
    assert s[0] == ',' && s[1..] == rest;
    MemberRoundTrip(f, s);
  }

  lemma {:induction false} MembersRoundTrip(o: Object)
    requires o != []
    ensures ReadMembers(Listed(o) + "}") == Some(o)
  {
    if |o| == 1 {
      MemberRoundTrip(o[0], "}");
      assert o == [o[0]];
    } else {
      MembersRoundTrip(o[1..]);
      Regrouped(Member(o[0]), ",", Listed(o[1..]), "}");
      MembersRead(o[0], Listed(o[1..]) + "}", o[1..]);
      assert [o[0]] + o[1..] == o;
    }
  }

  /** What is marshalled reads back as the object: its members in order, each with its name and value. */
  lemma ObjectRoundTrip(o: Object)
    ensures ReadObject(Marshalled(o)) == Some(o)
  {
    if o == [] {
      assert Marshalled(o) == "{}";
    } else {
      MembersRoundTrip(o);
      assert Marshalled(o)[1..] == Listed(o) + "}";
      assert Listed(o) != "";
    }
  }

  // ---------- characters that never occur ----------

  predicate IsSafe(c: char) {
    && ' ' <= c && c != '<' && c != '>' && c != '&'
    && c as int != 0x2028 && c as int != 0x2029
  }

  predicate AllSafe(s: string) {
    forall i | 0 <= i < |s| :: IsSafe(s[i])
  }

  lemma HexIsSafe(d: nat)
    requires d < 16
    ensures IsSafe(HEX[d])
  {
  }

  lemma EscapedCharIsSafe(c: char)
    ensures AllSafe(EscapedChar(c))
  {
    if !IsPlain(c) && ShortEscape(c).None? {
      var high := c as int / 16;
      HexIsSafe(high / 16 / 16);
      HexIsSafe(high / 16 % 16);
      HexIsSafe(high % 16);
      HexIsSafe(c as int % 16);
    }
  }

  lemma TwoAreSafe(a: string, b: string)
    requires AllSafe(a) && AllSafe(b)
    ensures AllSafe(a + b)
  {
  }

  lemma {:induction false} EscapedIsSafe(s: string)
    ensures AllSafe(Escaped(s))
  {
    if s != "" {
      EscapedCharIsSafe(s[0]);
      EscapedIsSafe(s[1..]);
      TwoAreSafe(EscapedChar(s[0]), Escaped(s[1..]));
    }
  }

  lemma {:induction false} NumberIsSafe(n: nat)
    ensures AllSafe(RingSpec.Itoa(n))
  {
    if n >= 10 {
      NumberIsSafe(n / 10);
    }
  }

  lemma DecimalIsSafe(n: int)
    ensures AllSafe(Decimal(n))
  {
    NumberIsSafe(if n < 0 then -n else n);
  }

  lemma QuotedIsSafe(s: string)
    ensures AllSafe(Quoted(s))
  {
    EscapedIsSafe(s);
  }

  lemma MemberIsSafe(f: Field)
    ensures AllSafe(Member(f))
  {
    QuotedIsSafe(f.name);
    match f
    case Text(_, text) => QuotedIsSafe(text);
    case Number(_, n) => DecimalIsSafe(n);
  }

  lemma {:induction false} ListedIsSafe(fields: Object)
    ensures AllSafe(Listed(fields))
  {
    if fields != [] {
      MemberIsSafe(fields[0]);
      if |fields| > 1 {
        ListedIsSafe(fields[1..]);
        TwoAreSafe(Member(fields[0]), ",");
        TwoAreSafe(Member(fields[0]) + ",", Listed(fields[1..]));
      }
    }
  }

  /** Whatever the users have typed, a marshalled message has no newline, nor any other control character, no
      angle bracket or ampersand, and none of the two further line ends of JavaScript. */
  lemma MarshalledIsSafe(o: Object)
    ensures AllSafe(Marshalled(o))
  {
    ListedIsSafe(o);
    TwoAreSafe("{", Listed(o));
    TwoAreSafe("{" + Listed(o), "}");
  }
}
