/** Session names: 16 random bytes in hexadecimal (src/mcp_http.c:90-109) and
    how a POST names its session (src/mcp_http.c:525-551). A C string is the
    sequence of its characters before the NUL. */
module SessionId {
  import opened CStrings
  import opened Json

  newtype byte = x: int | 0 <= x < 256

  const HEX := "0123456789abcdef"

  predicate IsHex(ch: char) { '0' <= ch <= '9' || 'a' <= ch <= 'f' }

  /** Value of a hexadecimal digit, and the digit of a value. */
  function Digit(ch: char): (d: byte)
    requires IsHex(ch)
    ensures d < 16
  {
    if ch <= '9' then (ch as int - '0' as int) as byte else (10 + (ch as int - 'a' as int)) as byte
  }

  function HexChar(d: byte): (ch: char)
    requires d < 16
    ensures IsHex(ch) && Digit(ch) == d
  {
    if d < 10 then ('0' as int + d as int) as char else ('a' as int + (d as int - 10)) as char
  }

  lemma HexTable(d: byte)
    requires d < 16
    ensures HEX[d as int] == HexChar(d)
  {}

  /** The strings that gen_session_id can produce. */
  predicate IsName(id: string) {
    |id| == 32 && forall i :: 0 <= i < 32 ==> IsHex(id[i])
  }

  // ----- generating a name -----

  function HighDigit(b: byte): (ch: char) ensures IsHex(ch) { HexChar(b / 16) }

  function LowDigit(b: byte): (ch: char) ensures IsHex(ch) { HexChar(b % 16) }

  /** The name of 16 raw bytes. */
  function Name(raw: seq<byte>): (id: string)
    requires |raw| == 16
    ensures IsName(id)
  {
    seq(32, i requires 0 <= i < 32 => if i % 2 == 0 then HighDigit(raw[i / 2]) else LowDigit(raw[i / 2]))
  }

  /** `random` is what fread got from /dev/urandom; it is empty when the file
      could not be opened. */
  method GenSessionId(random: seq<byte>, out: array<char>) returns (rc: int)
    requires out.Length == 33
    modifies out
    ensures rc == 0 <==> |random| >= 16
    ensures rc == 0 ==> CString(out[..]) == Name(random[..16])
    ensures rc != 0 ==> rc == -1 && out[..] == old(out[..])
  {
    if |random| < 16 {
      return -1;
    }
    var raw := random[..16];
    ghost var name := Name(raw);
    var i := 0;
    while i < 16
      invariant 0 <= i <= 16
      invariant forall k :: 0 <= k < 2 * i ==> out[k] == name[k]
    {
      HexTable(raw[i] / 16);
      HexTable(raw[i] % 16);
      out[i * 2] := HEX[(raw[i] / 16) as int];
      out[i * 2 + 1] := HEX[(raw[i] % 16) as int];
      i := i + 1;
    }
    out[32] := '\0';
    NameHasNoNul(raw);
    assert out[..][..32] == name;
    CStringIs(out[..], name);
    return 0;
  }

  lemma NameHasNoNul(raw: seq<byte>)
    requires |raw| == 16
    ensures '\0' !in Name(raw) && '&' !in Name(raw)
  {
    assert forall i :: 0 <= i < 32 ==> IsHex(Name(raw)[i]);
  }

  function Raw(id: string): (raw: seq<byte>)
    requires IsName(id)
    ensures |raw| == 16
  {
    seq(16, i requires 0 <= i < 16 => Digit(id[2 * i]) * 16 + Digit(id[2 * i + 1]))
  }

  lemma DigitsOfByte(b: byte)
    ensures Digit(HighDigit(b)) * 16 + Digit(LowDigit(b)) == b
  {}

  lemma ByteOfDigits(hi: char, lo: char)
    requires IsHex(hi) && IsHex(lo)
    ensures HighDigit(Digit(hi) * 16 + Digit(lo)) == hi
    ensures LowDigit(Digit(hi) * 16 + Digit(lo)) == lo
  {
    var h, l := Digit(hi), Digit(lo);
    assert (h * 16 + l) / 16 == h && (h * 16 + l) % 16 == l;
    CharOfDigit(hi);
    CharOfDigit(lo);
  }

  lemma CharOfDigit(ch: char)
    requires IsHex(ch)
    ensures HexChar(Digit(ch)) == ch
  {}

  lemma RawAt(raw: seq<byte>, i: nat)
    requires |raw| == 16 && i < 16
    ensures Raw(Name(raw))[i] == raw[i]
  {
    DigitsOfByte(raw[i]);
    var name := Name(raw);
    assert name[2 * i] == HighDigit(raw[i]) && name[2 * i + 1] == LowDigit(raw[i]);
  }

  lemma RawOfName(raw: seq<byte>)
    requires |raw| == 16
    ensures Raw(Name(raw)) == raw
  {
    forall i | 0 <= i < 16 ensures Raw(Name(raw))[i] == raw[i] { RawAt(raw, i); }
  }

  lemma NameOfRaw(id: string)
    requires IsName(id)
    ensures Name(Raw(id)) == id
  {
    forall i | 0 <= i < 32 ensures Name(Raw(id))[i] == id[i] {
      ByteOfDigits(id[2 * (i / 2)], id[2 * (i / 2) + 1]);
    }
  }

  /** Names and 16-byte values correspond one to one: no two values share a name
      and every name of 32 hexadecimal digits belongs to a value. */
  lemma NamesRoundTrip(raw: seq<byte>, id: string)
    requires |raw| == 16 && IsName(id)
    ensures Raw(Name(raw)) == raw
    ensures Name(Raw(id)) == id
  {
    RawOfName(raw);
    NameOfRaw(id);
  }

  lemma NameIsInjective(a: seq<byte>, b: seq<byte>)
    requires |a| == 16 && |b| == 16 && Name(a) == Name(b)
    ensures a == b
  {
    NamesRoundTrip(a, Name(a));
    NamesRoundTrip(b, Name(b));
  }

  // ----- finding a name in a request path -----

  const KEY := "sessionId="
  const ENDPOINT := "/message?sessionId="

  function Split(s: string, ch: char): seq<string>
    decreases |s|
  {
    var n := IndexOf(s, ch);
    if n == |s| then [s] else [s[..n]] + Split(s[n + 1..], ch)
  }

  /** The first piece that starts with the key, cut to 32 characters. */
  function FirstNamed(pieces: seq<string>): Option<string> {
    if pieces == [] then None
    else if KEY <= pieces[0] then
      var value := pieces[0][|KEY|..];
      Some(if |value| <= 32 then value else value[..32])
    else FirstNamed(pieces[1..])
  }

  /** The simple form: split the query on '&', take the first piece that starts
      with sessionId=, keep at most 32 characters, reject it if empty. */
  function Extract(path: string): Option<string> {
    var q := IndexOf(path, '?');
    if q == |path| then None
    else match FirstNamed(Split(path[q + 1..], '&'))
      case Some(id) => if id == "" then None else Some(id)
      case None => None
  }

  lemma SplitOnce(s: string)
    ensures Split(s, '&')[0] == s[..IndexOf(s, '&')]
    ensures IndexOf(s, '&') < |s| ==> Split(s, '&')[1..] == Split(s[IndexOf(s, '&') + 1..], '&')
    ensures IndexOf(s, '&') == |s| ==> Split(s, '&') == [s]
  {}

  /** strncmp(p, "sessionId=", 10) == 0 at index p of a C string. */
  predicate StartsAt(path: string, p: nat, prefix: string)
    requires p <= |path|
  {
    prefix <= path[p..]
  }

  lemma KeyBeforeAmp(s: string)
    ensures KEY <= s <==> KEY <= s[..IndexOf(s, '&')]
  {
    assert forall k :: 0 <= k < |KEY| ==> KEY[k] != '&';
    assert KEY <= s ==> forall k :: 0 <= k < |KEY| ==> s[k] == KEY[k];
    assert KEY <= s ==> IndexOf(s, '&') >= |KEY|;
  }

  /** Copies at most 32 characters, up to the next '&' or the end. */
  method CopyValue(path: string, p: nat, out: array<char>) returns (i: nat)
    requires '\0' !in path && p <= |path| && out.Length == 33
    modifies out
    ensures var value := path[p..][..IndexOf(path[p..], '&')];
      && i == (if |value| <= 32 then |value| else 32)
      && CString(out[..]) == value[..i]
  {
    ghost var rest := path[p..];
    ghost var value := rest[..IndexOf(rest, '&')];
    assert forall k :: 0 <= k < |value| ==> value[k] == path[p + k] && value[k] in value;
    assert p + |value| < |path| ==> rest[|value|] == path[p + |value|] == '&';
    i := 0;
    while i < 32 && p + i < |path| && path[p + i] != '&'
      invariant 0 <= i <= 32 && i <= |value|
      invariant forall k :: 0 <= k < i ==> out[k] == value[k]
    {
      out[i] := path[p + i];
      i := i + 1;
    }
    out[i] := '\0';
    assert out[..][..i] == value[..i];
    assert forall ch :: ch in value ==> ch in path;
    CStringIs(out[..], value[..i]);
  }

  /** What the scan finds when it stands at index p. */
  function FoundFrom(path: string, p: nat): Option<string>
    requires p <= |path|
  {
    FirstNamed(Split(path[p..], '&'))
  }

  lemma FoundHere(path: string, p: nat)
    requires p <= |path| && StartsAt(path, p, KEY)
    ensures p + 10 <= |path|
    ensures var value := path[p + 10..][..IndexOf(path[p + 10..], '&')];
      FoundFrom(path, p) == Some(if |value| <= 32 then value else value[..32])
  {
    var rest := path[p..];
    SplitOnce(rest);
    KeyBeforeAmp(rest);
    assert rest == KEY + path[p + 10..];
    assert forall k :: 0 <= k < |KEY| ==> KEY[k] != '&';
    IndexBehind(KEY, path[p + 10..]);
    assert rest[..IndexOf(rest, '&')][10..] == path[p + 10..][..IndexOf(path[p + 10..], '&')];
  }

  lemma {:induction false} IndexBehind(prefix: string, rest: string)
    requires '&' !in prefix
    ensures IndexOf(prefix + rest, '&') == |prefix| + IndexOf(rest, '&')
  {
    if prefix == "" {
      assert prefix + rest == rest;
    } else {
      assert prefix[0] in prefix && (prefix + rest)[0] == prefix[0];
      assert (prefix + rest)[1..] == prefix[1..] + rest;
      IndexBehind(prefix[1..], rest);
    }
  }

  lemma FoundLater(path: string, p: nat)
    requires p <= |path| && !StartsAt(path, p, KEY)
    ensures var amp := IndexOf(path[p..], '&');
      FoundFrom(path, p) == if p + amp == |path| then None else FoundFrom(path, p + amp + 1)
  {
    var rest := path[p..];
    var amp := IndexOf(rest, '&');
    SplitOnce(rest);
    KeyBeforeAmp(rest);
    if p + amp == |path| {
      assert rest[..amp] == rest;
      var one := [rest];
      assert one[1..] == [] && !(KEY <= one[0]) && Split(rest, '&') == one;
      assert FirstNamed(one[1..]) == None;
    } else {
      assert rest[amp + 1..] == path[p + amp + 1..];
      var pieces := Split(rest, '&');
      assert pieces[0] == rest[..amp] && pieces[1..] == Split(path[p + amp + 1..], '&');
      assert FirstNamed(pieces) == FirstNamed(pieces[1..]);
    }
  }

  lemma FoundNowhere(path: string)
    ensures FoundFrom(path, |path|) == None
  {
    assert path[|path|..] == "";
    assert !StartsAt(path, |path|, KEY);
    FoundLater(path, |path|);
  }

  /** What the caller is told about a value found. */
  predicate Answers(found: bool, value: string, path: string, p: nat)
    requires p <= |path|
  {
    match FoundFrom(path, p)
    case None => !found
    case Some(id) => (found <==> id != "") && (found ==> value == id)
  }

  /** The scan of the query, from its first character on. */
  method ScanQuery(path: string, start: nat, out: array<char>) returns (found: bool)
    requires '\0' !in path && start <= |path| && out.Length == 33
    modifies out
    ensures Answers(found, CString(out[..]), path, start)
  {
    var p := start;
    while p < |path|
      invariant start <= p <= |path|
      invariant FoundFrom(path, start) == FoundFrom(path, p)
    {
      if StartsAt(path, p, KEY) {
        FoundHere(path, p);
        var i := CopyValue(path, p + 10, out);
        return i > 0;
      }
      FoundLater(path, p);
      var amp := IndexOf(path[p..], '&');
      if p + amp == |path| {
        return false;
      }
      p := p + amp + 1;
    }
    FoundNowhere(path);
    return false;
  }

  /** extract_session_id. */
  method ExtractSessionId(path: string, out: array<char>) returns (found: bool)
    requires '\0' !in path && out.Length == 33
    modifies out
    ensures found <==> Extract(path).Some?
    ensures found ==> CString(out[..]) == Extract(path).value
  {
    var q := IndexOf(path, '?');
    if q == |path| {
      return false;
    }
    found := ScanQuery(path, q + 1, out);
  }

  // ----- the round trip -----

  /** A client that posts to the path it was given, with anything appended,
      names the session it was given, whichever name was generated. */
  lemma EndpointRoundTrip(id: string, suffix: string)
    requires IsName(id)
    ensures Extract(ENDPOINT + id + suffix) == Some(id)
  {
    EndpointShape(id, suffix);
    assert '&' !in id;
    NamedValue(ENDPOINT + id + suffix, 9, id, suffix);
  }

  lemma EndpointShape(id: string, suffix: string)
    ensures var path := ENDPOINT + id + suffix;
      IndexOf(path, '?') == 8 && path[9..] == KEY + id + suffix
  {
    var path := ENDPOINT + id + suffix;
    assert ENDPOINT == "/message" + "?" + KEY;
    assert path == "/message" + "?" + (KEY + id + suffix);
    IndexAfter("/message", '?', KEY + id + suffix);
  }

  lemma NamedValue(path: string, p: nat, id: string, suffix: string)
    requires p <= |path| && path[p..] == KEY + id + suffix && |id| == 32 && '&' !in id
    ensures FoundFrom(path, p) == Some(id)
  {
    assert StartsAt(path, p, KEY);
    FoundHere(path, p);
    assert path[p + 10..] == path[p..][10..] == id + suffix;
    IndexBehind(id, suffix);
    var value := (id + suffix)[..IndexOf(id + suffix, '&')];
    assert value[..32] == id;
    assert |value| == 32 ==> value == value[..32];
  }

  lemma {:induction false} IndexAfter(prefix: string, ch: char, rest: string)
    requires ch !in prefix
    ensures IndexOf(prefix + [ch] + rest, ch) == |prefix|
  {
    var s := prefix + [ch] + rest;
    if prefix != "" {
      assert prefix[0] in prefix && s[0] == prefix[0];
      IndexAfter(prefix[1..], ch, rest);
      assert s[1..] == prefix[1..] + [ch] + rest;
    }
  }
}
