/** The application/x-www-form-urlencoded serializer of the WHATWG URL Standard (section 5.2), which
    URLSearchParams uses for its string form, and the matching parser (section 5.1) that reads it back. */
module FormUrlEncoded {
  import opened Wrappers
  import Utf8

  type byte = Utf8.byte

  /** Bytes the serializer leaves as they are: ASCII alphanumerics and `*`, `-`, `.`, `_`. */
  predicate IsUnreservedByte(b: byte) {
    (0x30 <= b <= 0x39) || (0x41 <= b <= 0x5A) || (0x61 <= b <= 0x7A)
    || b == 0x2A || b == 0x2D || b == 0x2E || b == 0x5F
  }

  /** Characters that can appear in serialized output. */
  predicate IsSerializedChar(c: char) {
    ('0' <= c <= '9') || ('A' <= c <= 'Z') || ('a' <= c <= 'z')
    || c == '*' || c == '-' || c == '.' || c == '_' || c == '+' || c == '%'
  }

  /** An upper-case hexadecimal digit. */
  function HexDigit(d: nat): (c: char)
    requires d < 16
    ensures IsSerializedChar(c)
  {
    if d < 10 then ('0' as int + d) as char else ('A' as int + d - 10) as char
  }

  /** The value of an ASCII hexadecimal digit of either case. */
  function HexValue(c: char): (r: Option<nat>)
    ensures r.Some? ==> r.value < 16
  {
    if '0' <= c <= '9' then Some(c as int - '0' as int)
    else if 'A' <= c <= 'F' then Some(c as int - 'A' as int + 10)
    else if 'a' <= c <= 'f' then Some(c as int - 'a' as int + 10)
    else None
  }

  lemma HexValueDigit(d: nat)
    requires d < 16
    ensures HexValue(HexDigit(d)) == Some(d)
  {
  }

  /** One byte of the output: space as `+`, an unreserved byte as itself, any other byte as `%XX`. */
  function EncodeByte(b: byte): (s: string)
    ensures forall i :: 0 <= i < |s| ==> IsSerializedChar(s[i])
  {
    if b == 0x20 then "+"
    else if IsUnreservedByte(b) then [b as char]
    else ['%', HexDigit(b / 16), HexDigit(b % 16)]
  }

  function EncodeBytes(bs: seq<byte>): (s: string)
    ensures forall i :: 0 <= i < |s| ==> IsSerializedChar(s[i])
  {
    if bs == [] then "" else EncodeByte(bs[0]) + EncodeBytes(bs[1..])
  }

  /** Percent-encode after encoding with UTF-8, the form-urlencoded percent-encode set and space as plus. */
  function Encode(s: string): (r: string)
    ensures forall i :: 0 <= i < |r| ==> IsSerializedChar(r[i])
  {
    EncodeBytes(Utf8.Encode(s))
  }

  /** `name=value` for one tuple. */
  function SerializePair(p: (string, string)): string {
    Encode(p.0) + "=" + Encode(p.1)
  }

  /** The serializer: the tuples' `name=value` forms in list order, joined by `&`. */
  function Serialize(pairs: seq<(string, string)>): (s: string)
    ensures s == "" <==> pairs == []
  {
    if pairs == [] then ""
    else if |pairs| == 1 then SerializePair(pairs[0])
    else SerializePair(pairs[0]) + "&" + Serialize(pairs[1..])
  }

  // ---- The parser, the serializer's partner ----

  /** Splits `s` on every occurrence of `sep`; there is always at least one piece. */
  function Split(s: string, sep: char): (parts: seq<string>)
    ensures |parts| >= 1
  {
    if s == [] then [""]
    else if s[0] == sep then [""] + Split(s[1..], sep)
    else
      var rest := Split(s[1..], sep);
      [[s[0]] + rest[0]] + rest[1..]
  }

  /** The index of the first `c` in `s`, if any. */
  function IndexOf(s: string, c: char): (r: Option<nat>)
    ensures r.Some? ==> r.value < |s| && s[r.value] == c && c !in s[..r.value]
    ensures r.None? ==> c !in s
  {
    if s == [] then None
    else if s[0] == c then Some(0)
    else
      match IndexOf(s[1..], c)
      case None => None
      case Some(i) => Some(i + 1)
  }

  /** The bytes of a name or value: `+` is a space, `%` with two hex digits is that byte, and any
      other character stands for its own UTF-8 bytes. */
  function PercentDecode(s: string): seq<byte>
    decreases |s|
  {
    if s == [] then []
    else if s[0] == '+' then [0x20] + PercentDecode(s[1..])
    else if s[0] == '%' && |s| >= 3 && HexValue(s[1]).Some? && HexValue(s[2]).Some? then
      [HexValue(s[1]).value * 16 + HexValue(s[2]).value] + PercentDecode(s[3..])
    else Utf8.EncodeScalar(s[0]) + PercentDecode(s[1..])
  }

  function Decode(s: string): Option<string> {
    Utf8.Decode(PercentDecode(s))
  }

  /** One non-empty `&`-separated sequence: name before the first `=`, value after it. */
  function ParsePair(e: string): Option<(string, string)> {
    var (name, value) :=
      match IndexOf(e, '=')
      case Some(i) => (e[..i], e[i + 1..])
      case None => (e, "");
    match (Decode(name), Decode(value))
    case (Some(n), Some(v)) => Some((n, v))
    case _ => None
  }

  function ParsePairs(entries: seq<string>): Option<seq<(string, string)>> {
    if entries == [] then Some([])
    else if entries[0] == "" then ParsePairs(entries[1..])
    else
      match (ParsePair(entries[0]), ParsePairs(entries[1..]))
      case (Some(p), Some(ps)) => Some([p] + ps)
      case _ => None
  }

  /** The parser: the tuples of `s`, or None where a name or value is not valid UTF-8. */
  function Parse(s: string): Option<seq<(string, string)>> {
    ParsePairs(Split(s, '&'))
  }

  /** The first value for `name`, as URLSearchParams' get() returns it. */
  function Get(pairs: seq<(string, string)>, name: string): (r: Option<string>)
    ensures r.Some? <==> exists i :: 0 <= i < |pairs| && pairs[i].0 == name
  {
    if pairs == [] then None
    else if pairs[0].0 == name then Some(pairs[0].1)
    else
      var r := Get(pairs[1..], name);
      assert forall i :: 1 <= i < |pairs| ==> pairs[i] == pairs[1..][i - 1];
      r
  }

  /** get() on a concatenation looks in the second list only when the first has no such name. */
  lemma {:induction false} GetAppend(a: seq<(string, string)>, b: seq<(string, string)>, name: string)
    ensures Get(a + b, name) == if Get(a, name).Some? then Get(a, name) else Get(b, name)
  {
    if a != [] {
      assert (a + b)[1..] == a[1..] + b;
      GetAppend(a[1..], b, name);
    } else {
      assert a + b == b;
    }
  }

  // ---- Round trips ----

  lemma PercentDecodeEncodeByte(b: byte, rest: string)
    ensures PercentDecode(EncodeByte(b) + rest) == [b] + PercentDecode(rest)
  {
    var s := EncodeByte(b) + rest;
    if b == 0x20 {
      assert s[1..] == rest;
    } else if IsUnreservedByte(b) {
      assert s[0] == b as char && s[1..] == rest;
    } else {
      HexValueDigit(b / 16);
      HexValueDigit(b % 16);
      assert s[3..] == rest;
    }
  }

  lemma {:induction false} PercentDecodeEncodeBytes(bs: seq<byte>)
    ensures PercentDecode(EncodeBytes(bs)) == bs
  {
    if bs != [] {
      PercentDecodeEncodeByte(bs[0], EncodeBytes(bs[1..]));
      PercentDecodeEncodeBytes(bs[1..]);
    }
  }

  /** Every name or value survives serialization. */
  lemma DecodeEncode(s: string)
    ensures Decode(Encode(s)) == Some(s)
  {
    PercentDecodeEncodeBytes(Utf8.Encode(s));
    Utf8.DecodeEncode(s);
  }

  lemma {:induction false} SplitNoSeparator(s: string, sep: char)
    requires sep !in s
    ensures Split(s, sep) == [s]
  {
    if s != [] {
      SplitNoSeparator(s[1..], sep);
      assert [s[0]] + s[1..] == s;
    }
  }

  lemma {:induction false} SplitAfter(a: string, sep: char, b: string)
    requires sep !in a
    ensures Split(a + [sep] + b, sep) == [a] + Split(b, sep)
  {
    var s := a + [sep] + b;
    if a == [] {
      assert s[1..] == b;
    } else {
      assert s[1..] == a[1..] + [sep] + b;
      SplitAfter(a[1..], sep, b);
      assert [a[0]] + a[1..] == a;
    }
  }

  lemma SerializedAvoids(s: string, c: char)
    requires !IsSerializedChar(c)
    ensures c !in Encode(s)
  {
  }

  lemma ParsePairSerializePair(p: (string, string))
    ensures ParsePair(SerializePair(p)) == Some(p)
  {
    var n, v := Encode(p.0), Encode(p.1);
    var e := SerializePair(p);
    SerializedAvoids(p.0, '=');
    assert e[|n|] == '=' && e[..|n|] == n && e[|n| + 1..] == v;
    assert IndexOf(e, '=') == Some(|n|);
    DecodeEncode(p.0);
    DecodeEncode(p.1);
  }

  /** The `&`-separated sequences of a serialization are the tuples' `name=value` forms. */
  lemma {:induction false} SplitSerialize(pairs: seq<(string, string)>)
    requires pairs != []
    ensures Split(Serialize(pairs), '&') == seq(|pairs|, i requires 0 <= i < |pairs| => SerializePair(pairs[i]))
  {
    var head := SerializePair(pairs[0]);
    assert '&' !in head by {
      SerializedAvoids(pairs[0].0, '&');
      SerializedAvoids(pairs[0].1, '&');
    }
    if |pairs| == 1 {
      SplitNoSeparator(head, '&');
    } else {
      SplitAfter(head, '&', Serialize(pairs[1..]));
      SplitSerialize(pairs[1..]);
    }
  }

  lemma {:induction false} ParsePairsSerialized(pairs: seq<(string, string)>)
    ensures ParsePairs(seq(|pairs|, i requires 0 <= i < |pairs| => SerializePair(pairs[i]))) == Some(pairs)
  {
    var entries := seq(|pairs|, i requires 0 <= i < |pairs| => SerializePair(pairs[i]));
    if pairs != [] {
      assert entries[0] != "" by {
        assert entries[0][|Encode(pairs[0].0)|] == '=';
      }
      ParsePairSerializePair(pairs[0]);
      assert entries[1..] == seq(|pairs[1..]|, i requires 0 <= i < |pairs[1..]| => SerializePair(pairs[1..][i]));
      ParsePairsSerialized(pairs[1..]);
      assert [pairs[0]] + pairs[1..] == pairs;
    }
  }

  /** The parser reads back exactly the list of tuples that was serialized, in order. */
  lemma ParseSerialize(pairs: seq<(string, string)>)
    ensures Parse(Serialize(pairs)) == Some(pairs)
  {
    if pairs == [] {
      assert Split("", '&') == [""];
    } else {
      SplitSerialize(pairs);
      ParsePairsSerialized(pairs);
    }
  }

  /** A string of unreserved ASCII characters only. */
  predicate IsUnreservedString(s: string) {
    forall i :: 0 <= i < |s| ==> s[i] as int < 0x80 && IsUnreservedByte(s[i] as int)
  }

  /** A string of unreserved ASCII characters serializes to itself. */
  lemma {:induction false} EncodeUnreserved(s: string)
    requires IsUnreservedString(s)
    ensures Encode(s) == s
  {
    if s != [] {
      var bs := Utf8.Encode(s);
      assert bs == [s[0] as int] + Utf8.Encode(s[1..]);
      assert bs[1..] == Utf8.Encode(s[1..]);
      EncodeUnreserved(s[1..]);
      assert [s[0]] + s[1..] == s;
    }
  }

  /** `name=value` forms joined by `&`, with nothing escaped. */
  function JoinVerbatim(pairs: seq<(string, string)>): string {
    if pairs == [] then ""
    else if |pairs| == 1 then pairs[0].0 + "=" + pairs[0].1
    else pairs[0].0 + "=" + pairs[0].1 + "&" + JoinVerbatim(pairs[1..])
  }

  /** Tuples whose names and values are all unreserved serialize with nothing escaped. */
  lemma {:induction false} SerializeUnreserved(pairs: seq<(string, string)>)
    requires forall i :: 0 <= i < |pairs| ==> IsUnreservedString(pairs[i].0) && IsUnreservedString(pairs[i].1)
    ensures Serialize(pairs) == JoinVerbatim(pairs)
  {
    if pairs != [] {
      EncodeUnreserved(pairs[0].0);
      EncodeUnreserved(pairs[0].1);
      if |pairs| > 1 {
        SerializeUnreserved(pairs[1..]);
      }
    }
  }
}
