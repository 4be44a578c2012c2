/** The percent-encoding of the cloud-init `sshkeys` field (RFC 3986 sections 2.1 and 2.3) and the
    comparison of two encoded key lists. Strings are byte strings. */
module Codec {
  import opened Text

  predicate ByteString(s: string) { forall i | 0 <= i < |s| :: s[i] as int < 256 }

  predicate Unreserved(c: char) {
    'A' <= c <= 'Z' || 'a' <= c <= 'z' || IsDigit(c) || c == '-' || c == '.' || c == '_' || c == '~'
  }

  function HexChar(d: int): (c: char)
    requires 0 <= d < 16
    ensures HexValue(c) == Some(d)
  {
    if d < 10 then DigitChar(d) else 'A' + ((d - 10) as char)
  }

  function HexValue(c: char): Option<int> {
    if IsDigit(c) then Some(DigitValue(c))
    else if 'A' <= c <= 'F' then Some(10 + (c as int) - ('A' as int))
    else if 'a' <= c <= 'f' then Some(10 + (c as int) - ('a' as int))
    else None
  }

  function EncodeByte(c: char): string
    requires c as int < 256
  {
    if Unreserved(c) then [c] else ['%', HexChar(c as int / 16), HexChar(c as int % 16)]
  }

  function Encode(s: string): string
    requires ByteString(s)
  {
    if s == "" then "" else Encode(s[..|s| - 1]) + EncodeByte(s[|s| - 1])
  }

  method UrlEncode(s: string) returns (b: string)
    requires ByteString(s)
    ensures b == Encode(s)
  {
    b := "";
    for i := 0 to |s|
      invariant b == Encode(s[..i])
    {
      assert s[..i + 1][..i] == s[..i];
      b := b + EncodeByte(s[i]);
    }
    assert s[..|s|] == s;
  }

  /** Query unescaping with every `+` first made literal; None on a malformed escape. */
  function Decode(v: string): Option<string> {
    if v == "" then Some("")
    else if v[0] == '%' then
      if |v| < 3 || HexValue(v[1]).None? || HexValue(v[2]).None? then None
      else
        var rest := Decode(v[3..]);
        if rest.None? then None
        else Some([(16 * HexValue(v[1]).value + HexValue(v[2]).value) as char] + rest.value)
    else
      var rest := Decode(v[1..]);
      if rest.None? then None else Some([v[0]] + rest.value)
  }

  lemma DecodeByte(c: char)
    requires c as int < 256
    ensures Decode(EncodeByte(c)) == Some([c])
  {
    var e := EncodeByte(c);
    if Unreserved(c) {
      DecodePlain(c);
    } else {
      var hi, lo := c as int / 16, c as int % 16;
      assert (16 * hi + lo) as char == c;
      DecodeEscape(HexChar(hi), HexChar(lo), c);
    }
  }

  lemma DecodePlain(c: char)
    requires c != '%'
    ensures Decode([c]) == Some([c])
  {
    assert [c][1..] == "" && Decode("") == Some("") && [c] + "" == [c];
  }

  lemma DecodeEscape(h: char, l: char, c: char)
    requires HexValue(h).Some? && HexValue(l).Some? && 16 * HexValue(h).value + HexValue(l).value == c as int
    ensures Decode(['%', h, l]) == Some([c])
  {
    hide HexValue;
    var e := ['%', h, l];
    assert e[0] == '%' && e[1] == h && e[2] == l && e[3..] == "" && Decode("") == Some("");
    assert [c] + "" == [c];
  }

  lemma {:induction false} DecodeAppend(v: string, c: char)
    requires c as int < 256 && Decode(v).Some?
    ensures Decode(v + EncodeByte(c)) == Some(Decode(v).value + [c])
    decreases |v|
  {
    var e := EncodeByte(c);
    if v == "" {
      assert v + e == e && Decode(v).value + [c] == [c];
      DecodeByte(c);
    } else if v[0] == '%' {
      assert (v + e)[3..] == v[3..] + e;
      DecodeAppend(v[3..], c);
      var head := [(16 * HexValue(v[1]).value + HexValue(v[2]).value) as char];
      assert head + Decode(v[3..]).value + [c] == head + (Decode(v[3..]).value + [c]);
    } else {
      assert (v + e)[1..] == v[1..] + e;
      DecodeAppend(v[1..], c);
      assert [v[0]] + Decode(v[1..]).value + [c] == [v[0]] + (Decode(v[1..]).value + [c]);
    }
  }

  /** Decoding the encoded form gives back every byte string. */
  lemma {:induction false} CodecRoundTrip(s: string)
    requires ByteString(s)
    ensures Decode(Encode(s)) == Some(s)
  {
    if s != "" {
      var n := |s| - 1;
      CodecRoundTrip(s[..n]);
      DecodeAppend(Encode(s[..n]), s[n]);
      assert s == s[..n] + [s[n]];
    }
  }

  /** Trimmed, non-blank lines. */
  function Lines(s: string): set<string> {
    set l | l in Split(s, '\n') && TrimSpace(l) != "" :: TrimSpace(l)
  }

  /** The keys of a wire value; text that does not decode is taken as it is. */
  function KeySet(v: string): set<string> {
    Lines(if Decode(v).Some? then Decode(v).value else v)
  }

  /** The comparison the drift check makes: equal counts, and every wanted key is live. */
  predicate WireMatch(cur: string, want: string) {
    |KeySet(cur)| == |KeySet(want)| && forall k | k in KeySet(want) :: k in KeySet(cur)
  }

  lemma SubsetSameSize<T>(a: set<T>, b: set<T>)
    requires a <= b && |a| == |b|
    ensures a == b
  {
    assert b == a + (b - a);
  }

  /** On encoded values the comparison is equality of the trimmed key sets. */
  lemma WireMatchIsSetEquality(s: string, t: string)
    requires ByteString(s) && ByteString(t)
    ensures WireMatch(Encode(s), Encode(t)) <==> Lines(s) == Lines(t)
  {
    CodecRoundTrip(s);
    CodecRoundTrip(t);
    assert KeySet(Encode(s)) == Lines(s) && KeySet(Encode(t)) == Lines(t);
    if WireMatch(Encode(s), Encode(t)) {
      SubsetSameSize(Lines(t), Lines(s));
    }
  }

  const SENTINEL := "*"

  function Dedup(keys: seq<string>): (r: seq<string>)
    ensures forall k :: k in keys <==> k in r
  {
    if keys == [] then []
    else
      var rest := Dedup(keys[..|keys| - 1]);
      var k := keys[|keys| - 1];
      assert keys == keys[..|keys| - 1] + [k];
      if k in rest then rest else rest + [k]
  }

  /** The value written for a key list: "" means the field is not owned. */
  function SshKeysWire(keys: seq<string>): string
    requires forall k | k in keys :: ByteString(k)
  {
    if keys == [] || SENTINEL in keys then ""
    else
      JoinBytes(Dedup(keys));
      Encode(Join(Dedup(keys), "\n"))
  }

  lemma {:induction false} JoinBytes(parts: seq<string>)
    requires forall p | p in parts :: ByteString(p)
    ensures ByteString(Join(parts, "\n"))
  {
    if |parts| > 1 {
      JoinBytes(parts[1..]);
      assert ByteString(parts[0]);
    }
  }

  /** The written value carries exactly the listed keys, whatever their order or repetition. */
  lemma WireCarriesKeys(keys: seq<string>)
    requires keys != [] && SENTINEL !in keys
    requires forall k | k in keys :: ByteString(k) && '\n' !in k
    ensures KeySet(SshKeysWire(keys)) == set k | k in keys && TrimSpace(k) != "" :: TrimSpace(k)
  {
    var d := Dedup(keys);
    assert keys[0] in d;
    JoinBytes(d);
    CodecRoundTrip(Join(d, "\n"));
    SplitJoin(d, '\n');
  }
}
