/** The binding link: the node percent-encodes three values into a URL fragment, the bridge's
    page parses the fragment as a form. Text is represented by its UTF-8 bytes. */
module BindLink {
  import opened Wrappers

  type byte = b: int | 0 <= b < 0x100
  type Bytes = seq<byte>
  datatype Pair = Pair(name: Bytes, value: Bytes)

  const PERCENT: byte := 0x25
  const AMPERSAND: byte := 0x26
  const PLUS: byte := 0x2B
  const EQUALS: byte := 0x3D
  const QUESTION: byte := 0x3F
  const SPACE: byte := 0x20

  // --- Printing ---

  /** The unreserved characters of section 2.3 of RFC 3986. */
  predicate Unreserved(b: byte) {
    || 0x41 <= b <= 0x5A || 0x61 <= b <= 0x7A || 0x30 <= b <= 0x39
    || b == 0x2D || b == 0x5F || b == 0x2E || b == 0x7E
  }

  function NibbleToHex(n: int): byte
    requires 0 <= n < 16
  {
    if n <= 9 then 0x30 + n else 0x41 + (n - 10)
  }

  /** A byte as it stands, or as the percent-encoded triplet of section 2.1 of RFC 3986. */
  function EncodeByte(b: byte): Bytes {
    if Unreserved(b) then [b] else [PERCENT, NibbleToHex(b / 16), NibbleToHex(b % 16)]
  }

  function Encode(s: Bytes): Bytes {
    if s == [] then [] else EncodeByte(s[0]) + Encode(s[1..])
  }

  lemma {:induction false} EncodeAppend(s: Bytes, b: byte)
    ensures Encode(s + [b]) == Encode(s) + EncodeByte(b)
  {
    if s == [] {
      assert [b][1..] == [];
    } else {
      assert (s + [b])[1..] == s[1..] + [b];
      EncodeAppend(s[1..], b);
    }
  }

  method PercentEncode(value: Bytes) returns (encoded: Bytes)
    ensures encoded == Encode(value)
  {
    encoded := [];
    for i := 0 to |value|
      invariant encoded == Encode(value[..i])
    {
      assert value[..i + 1] == value[..i] + [value[i]];
      EncodeAppend(value[..i], value[i]);
      var b := value[i];
      if Unreserved(b) {
        encoded := encoded + [b];
      } else {
        encoded := encoded + [PERCENT];
        encoded := encoded + [NibbleToHex(b / 16)];
        encoded := encoded + [NibbleToHex(b % 16)];
      }
    }
    assert value[..|value|] == value;
  }

  function Field(p: Pair): Bytes {
    Encode(p.name) + [EQUALS] + Encode(p.value)
  }

  /** `name=value` fields joined by ampersands. */
  function Form(pairs: seq<Pair>): Bytes {
    if pairs == [] then []
    else if |pairs| == 1 then Field(pairs[0])
    else Field(pairs[0]) + [AMPERSAND] + Form(pairs[1..])
  }

  /** `ozon66_pairing_code`, `claim_url` and `manifest_url`. */
  const CODE: Bytes :=
    [0x6F, 0x7A, 0x6F, 0x6E, 0x36, 0x36, 0x5F, 0x70, 0x61, 0x69, 0x72, 0x69, 0x6E, 0x67, 0x5F, 0x63, 0x6F, 0x64, 0x65]
  const CLAIM: Bytes := [0x63, 0x6C, 0x61, 0x69, 0x6D, 0x5F, 0x75, 0x72, 0x6C]
  const MANIFEST: Bytes := [0x6D, 0x61, 0x6E, 0x69, 0x66, 0x65, 0x73, 0x74, 0x5F, 0x75, 0x72, 0x6C]

  method BuildFragment(code: Bytes, claim: Bytes, manifest: Bytes) returns (fragment: Bytes)
    ensures fragment == Form([Pair(CODE, code), Pair(CLAIM, claim), Pair(MANIFEST, manifest)])
  {
    PlainNames();
    hide Encode;
    var c := PercentEncode(code);
    var u := PercentEncode(claim);
    var m := PercentEncode(manifest);
    fragment := CODE + [EQUALS] + c + [AMPERSAND] + CLAIM + [EQUALS] + u + [AMPERSAND] + MANIFEST + [EQUALS] + m;
    FormOfThree(Pair(CODE, code), Pair(CLAIM, claim), Pair(MANIFEST, manifest));
  }

  lemma FormOfThree(a: Pair, b: Pair, c: Pair)
    ensures Form([a, b, c]) == Field(a) + [AMPERSAND] + Field(b) + [AMPERSAND] + Field(c)
  {
    assert [a, b, c][1..] == [b, c] && [b, c][1..] == [c];
    assert Form([b, c]) == Field(b) + [AMPERSAND] + Field(c);
    assert Form([a, b, c]) == Field(a) + [AMPERSAND] + (Field(b) + [AMPERSAND] + Field(c));
  }

  /** The three field names need no escaping and are distinct. */
  lemma PlainNames()
    ensures Encode(CODE) == CODE && Encode(CLAIM) == CLAIM && Encode(MANIFEST) == MANIFEST
    ensures CODE != CLAIM && CODE != MANIFEST && CLAIM != MANIFEST
  {
    hide Encode;
    EncodePlain(CODE);
    EncodePlain(CLAIM);
    EncodePlain(MANIFEST);
    assert |CODE| == 19 && |CLAIM| == 9 && |MANIFEST| == 12;
  }

  lemma {:induction false} EncodePlain(s: Bytes)
    requires forall b | b in s :: Unreserved(b)
    ensures Encode(s) == s
  {
    if s != [] {
      assert forall b | b in s[1..] :: b in s;
      EncodePlain(s[1..]);
    }
  }

  // --- Setting the fragment ---

  /** The fragment percent-encode set of the WHATWG URL Standard. */
  predicate FragmentEscaped(b: byte) {
    b <= 0x20 || b > 0x7E || b == 0x22 || b == 0x3C || b == 0x3E || b == 0x60
  }

  /** What setting a URL's fragment stores. */
  function SetFragment(s: Bytes): Bytes {
    if s == [] then []
    else (if FragmentEscaped(s[0]) then [PERCENT, NibbleToHex(s[0] / 16), NibbleToHex(s[0] % 16)] else [s[0]])
         + SetFragment(s[1..])
  }

  // --- Parsing ---

  predicate IsHex(b: byte) {
    0x30 <= b <= 0x39 || 0x41 <= b <= 0x46 || 0x61 <= b <= 0x66
  }

  function HexValue(b: byte): int
    requires IsHex(b)
  {
    if b <= 0x39 then b - 0x30 else if b <= 0x46 then b - 0x41 + 10 else b - 0x61 + 10
  }

  function PercentDecode(s: Bytes): Bytes {
    if s == [] then []
    else if s[0] == PERCENT && |s| >= 3 && IsHex(s[1]) && IsHex(s[2]) then
      [HexValue(s[1]) * 16 + HexValue(s[2])] + PercentDecode(s[3..])
    else [s[0]] + PercentDecode(s[1..])
  }

  function PlusToSpace(s: Bytes): Bytes {
    seq(|s|, i requires 0 <= i < |s| => if s[i] == PLUS then SPACE else s[i])
  }

  /** Where `b` first occurs, or the length. */
  function Index(s: Bytes, b: byte): (n: nat)
    ensures n <= |s| && (n < |s| ==> s[n] == b) && b !in s[..n]
  {
    if s == [] || s[0] == b then 0
    else
      assert s[..1 + Index(s[1..], b)] == [s[0]] + s[1..][..Index(s[1..], b)];
      1 + Index(s[1..], b)
  }

  function ParseField(s: Bytes): Pair {
    var n := Index(s, EQUALS);
    var value := if n < |s| then s[n + 1..] else [];
    Pair(PercentDecode(PlusToSpace(s[..n])), PercentDecode(PlusToSpace(value)))
  }

  /** The application/x-www-form-urlencoded parser, section 5.1 of the WHATWG URL Standard. */
  function ParseForm(s: Bytes): seq<Pair>
    decreases |s|
  {
    if s == [] then []
    else
      var n := Index(s, AMPERSAND);
      var rest := if n < |s| then ParseForm(s[n + 1..]) else [];
      if n == 0 then rest else [ParseField(s[..n])] + rest
  }

  /** `new URLSearchParams(text)`, which drops a leading question mark. */
  function SearchParams(s: Bytes): seq<Pair> {
    ParseForm(if s != [] && s[0] == QUESTION then s[1..] else s)
  }

  /** `URLSearchParams.get`: the value of the first pair with the name. */
  function Get(pairs: seq<Pair>, name: Bytes): Option<Bytes> {
    if pairs == [] then None else if pairs[0].name == name then Some(pairs[0].value) else Get(pairs[1..], name)
  }

  // --- Round trip ---

  /** Everything an encoded value consists of. */
  predicate Encoded(b: byte) {
    Unreserved(b) || b == PERCENT
  }

  lemma {:induction false} EncodeAlphabet(s: Bytes)
    ensures forall b | b in Encode(s) :: Encoded(b)
  {
    if s != [] {
      EncodeAlphabet(s[1..]);
    }
  }

  lemma PlusKeepsEncoded(s: Bytes)
    requires forall b | b in s :: Encoded(b)
    ensures PlusToSpace(s) == s
  {
    assert forall i | 0 <= i < |s| :: s[i] in s;
  }

  /** Decoding inverts encoding on every byte string. */
  lemma {:induction false} DecodeEncode(s: Bytes)
    ensures PercentDecode(Encode(s)) == s
  {
    if s != [] {
      DecodeEncode(s[1..]);
      var rest := Encode(s[1..]);
      if Unreserved(s[0]) {
        assert ([s[0]] + rest)[1..] == rest;
      } else {
        var hi, lo := NibbleToHex(s[0] / 16), NibbleToHex(s[0] % 16);
        var e: Bytes := [PERCENT, hi, lo] + rest;
        assert e[0] == PERCENT && e[1] == hi && e[2] == lo && e[3..] == rest;
        assert HexValue(hi) * 16 + HexValue(lo) == s[0];
      }
    }
  }

  lemma {:induction false} IndexOfFirst(p: Bytes, b: byte, q: Bytes)
    requires b !in p
    ensures Index(p + [b] + q, b) == |p|
  {
    var s := p + [b] + q;
    if p != [] {
      assert s[1..] == p[1..] + [b] + q;
      IndexOfFirst(p[1..], b, q);
    }
  }

  lemma IndexOfNone(p: Bytes, b: byte)
    requires b !in p
    ensures Index(p, b) == |p|
  {
  }

  lemma FieldParses(p: Pair)
    ensures ParseField(Field(p)) == p && AMPERSAND !in Field(p) && Field(p) != []
    ensures forall b | b in Field(p) :: Encoded(b) || b == EQUALS
  {
    EncodeAlphabet(p.name);
    EncodeAlphabet(p.value);
    hide Encode, PercentDecode, Index;
    IndexOfFirst(Encode(p.name), EQUALS, Encode(p.value));
    assert Field(p)[..|Encode(p.name)|] == Encode(p.name);
    assert Field(p)[|Encode(p.name)| + 1..] == Encode(p.value);
    PlusKeepsEncoded(Encode(p.name));
    PlusKeepsEncoded(Encode(p.value));
    DecodeEncode(p.name);
    DecodeEncode(p.value);
  }

  /** Round trip: parsing a printed form yields exactly its pairs, for all names and values. */
  lemma {:induction false} FormRoundTrip(pairs: seq<Pair>)
    ensures ParseForm(Form(pairs)) == pairs
    ensures forall b | b in Form(pairs) :: Encoded(b) || b == EQUALS || b == AMPERSAND
  {
    if pairs != [] {
      hide Field, ParseField;
      FieldParses(pairs[0]);
      var field := Field(pairs[0]);
      if |pairs| == 1 {
        IndexOfNone(field, AMPERSAND);
        assert field[..|field|] == field;
      } else {
        FormRoundTrip(pairs[1..]);
        IndexOfFirst(field, AMPERSAND, Form(pairs[1..]));
        assert Form(pairs)[..|field|] == field;
        assert Form(pairs)[|field| + 1..] == Form(pairs[1..]);
      }
    }
  }

  lemma {:induction false} FragmentUntouched(s: Bytes)
    requires forall b | b in s :: Encoded(b) || b == EQUALS || b == AMPERSAND
    ensures SetFragment(s) == s
  {
    if s != [] {
      hide NibbleToHex;
      assert s[0] in s && forall b | b in s[1..] :: b in s;
      assert !FragmentEscaped(s[0]);
      FragmentUntouched(s[1..]);
    }
  }

  /** Stored as a URL's fragment and read as search parameters, any form yields its pairs. */
  lemma FragmentReadsBack(pairs: seq<Pair>)
    ensures SearchParams(SetFragment(Form(pairs))) == pairs
  {
    var form := Form(pairs);
    FormRoundTrip(pairs);
    hide Form, ParseForm, SetFragment;
    FragmentUntouched(form);
    assert form != [] ==> form[0] in form;
  }

  lemma GetOfThree(a: Pair, b: Pair, c: Pair)
    requires a.name != b.name && a.name != c.name && b.name != c.name
    ensures Get([a, b, c], a.name) == Some(a.value) && Get([a, b, c], b.name) == Some(b.value)
    ensures Get([a, b, c], c.name) == Some(c.value)
  {
    assert [a, b, c][1..] == [b, c] && [b, c][1..] == [c];
    assert Get([c], c.name) == Some(c.value);
    assert Get([b, c], c.name) == Some(c.value);
  }

  /** The page reads back exactly the three values the node put into the link, whatever they
      are, by the names the page asks for. */
  lemma LinkRoundTrip(code: Bytes, claim: Bytes, manifest: Bytes)
    ensures var pairs := [Pair(CODE, code), Pair(CLAIM, claim), Pair(MANIFEST, manifest)];
            var read := SearchParams(SetFragment(Form(pairs)));
            && read == pairs && Get(read, CODE) == Some(code)
            && Get(read, CLAIM) == Some(claim) && Get(read, MANIFEST) == Some(manifest)
  {
    hide Encode, Form, SetFragment, SearchParams, Get;
    PlainNames();
    FragmentReadsBack([Pair(CODE, code), Pair(CLAIM, claim), Pair(MANIFEST, manifest)]);
    GetOfThree(Pair(CODE, code), Pair(CLAIM, claim), Pair(MANIFEST, manifest));
  }

  // --- The printed form ---

  /** Letters, digits and four marks stand for themselves in a link. */
  lemma PlainExactly(b: byte)
    ensures EncodeByte(b) == [b] <==>
              var c := b as char;
              'A' <= c <= 'Z' || 'a' <= c <= 'z' || '0' <= c <= '9' || c == '-' || c == '_' || c == '.' || c == '~'
  {
  }

  /** All others become a percent sign and two upper-case digits. */
  lemma EscapedExactly(b: byte)
    ensures var digits := "0123456789ABCDEF";
            EncodeByte(b) == [b] || EncodeByte(b) == [0x25, digits[b / 16] as int, digits[b % 16] as int]
  {
  }

  /** The names of the three values. */
  lemma NamesSpelled()
    ensures |CODE| == |"ozon66_pairing_code"|
    ensures forall i | 0 <= i < |CODE| :: CODE[i] == "ozon66_pairing_code"[i] as int
    ensures |CLAIM| == |"claim_url"| && forall i | 0 <= i < |CLAIM| :: CLAIM[i] == "claim_url"[i] as int
    ensures |MANIFEST| == |"manifest_url"| && forall i | 0 <= i < |MANIFEST| :: MANIFEST[i] == "manifest_url"[i] as int
  {
  }
}
