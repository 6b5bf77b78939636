/** The identity key of a media slot: five percent-encoded parts joined by a bar, and the parser
    that recovers them (RFC 3986, section 2.1; UTF-8 as in RFC 3629, section 3). */
module MediaKey {
  import opened Common
  import opened Text

  // ---------------------------------------------------------------- percent-encoding

  /** The characters that encodeURIComponent leaves alone. */
  predicate Unreserved(c: char) {
    'A' <= c <= 'Z' || 'a' <= c <= 'z' || '0' <= c <= '9' || c in {'-', '_', '.', '!', '~', '*', '\'', '(', ')'}
  }

  type Octet = n: int | 0 <= n < 256

  /** The UTF-8 octets of a character. */
  function Octets(c: char): (o: seq<Octet>)
    ensures 1 <= |o| <= 4
  {
    var n := c as int;
    if n < 0x80 then [n]
    else if n < 0x800 then [0xC0 + n / 0x40, 0x80 + n % 0x40]
    else if n < 0x1_0000 then [0xE0 + n / 0x1000, 0x80 + n / 0x40 % 0x40, 0x80 + n % 0x40]
    else [0xF0 + n / 0x4_0000, 0x80 + n / 0x1000 % 0x40, 0x80 + n / 0x40 % 0x40, 0x80 + n % 0x40]
  }

  function HexDigit(d: nat): (c: char)
    requires d < 16
    ensures '0' <= c <= '9' || 'A' <= c <= 'F'
    ensures HexValue(c) == d
  {
    if d < 10 then '0' + d as char else 'A' + (d - 10) as char
  }

  function HexValue(c: char): (d: nat)
    ensures d < 16
  {
    if '0' <= c <= '9' then c as int - '0' as int
    else if 'A' <= c <= 'F' then c as int - 'A' as int + 10
    else 0
  }

  function Escape(o: Octet): (s: string)
    ensures |s| == 3
  {
    ['%', HexDigit(o / 16), HexDigit(o % 16)]
  }

  function EscapeAll(o: seq<Octet>): (s: string)
    ensures |s| == 3 * |o|
  {
    if o == [] then "" else Escape(o[0]) + EscapeAll(o[1..])
  }

  function EncodeChar(c: char): (s: string)
    ensures s != ""
  {
    if Unreserved(c) then [c] else EscapeAll(Octets(c))
  }

  /** The characters that are their own encoding, by their codes: letters, digits and nine marks. */
  lemma EncodedAsItself(c: char)
    ensures EncodeChar(c) == [c] <==>
            var n := c as int;
            0x41 <= n <= 0x5A || 0x61 <= n <= 0x7A || 0x30 <= n <= 0x39 ||
            n in {0x21, 0x27, 0x28, 0x29, 0x2A, 0x2D, 0x2E, 0x5F, 0x7E}
  {
    if !Unreserved(c) {
      assert |EncodeChar(c)| >= 3;
    }
  }

  function Encode(s: string): string {
    if s == "" then "" else EncodeChar(s[0]) + Encode(s[1..])
  }

  // ---------------------------------------------------------------- decoding

  /** The octet that an escape stands for. */
  function Unescape(s: string): (o: Octet)
    requires |s| >= 3
  {
    16 * HexValue(s[1]) + HexValue(s[2])
  }

  function UnescapeAll(s: string, n: nat): (o: seq<Octet>)
    requires |s| >= 3 * n
    ensures |o| == n
  {
    if n == 0 then [] else [Unescape(s)] + UnescapeAll(s[3..], n - 1)
  }

  /** How many octets a character has, by its first one. */
  function OctetCount(first: Octet): (n: nat)
    ensures 1 <= n <= 4
  {
    if first < 0x80 then 1 else if first < 0xE0 then 2 else if first < 0xF0 then 3 else 4
  }

  function CharOf(o: seq<int>): int
    requires 1 <= |o| <= 4
  {
    if |o| == 1 then o[0]
    else if |o| == 2 then (o[0] - 0xC0) * 0x40 + (o[1] - 0x80)
    else if |o| == 3 then (o[0] - 0xE0) * 0x1000 + (o[1] - 0x80) * 0x40 + (o[2] - 0x80)
    else (o[0] - 0xF0) * 0x4_0000 + (o[1] - 0x80) * 0x1000 + (o[2] - 0x80) * 0x40 + (o[3] - 0x80)
  }

  predicate IsCodePoint(n: int) {
    0 <= n < 0xD800 || 0xE000 <= n < 0x11_0000
  }

  /** decodeURIComponent; a malformed sequence has no decoding. */
  function Decode(s: string): Option<string>
    decreases |s|
  {
    if s == "" then Some("")
    else if s[0] != '%' then
      var rest := Decode(s[1..]); if rest.None? then None else Some([s[0]] + rest.value)
    else if |s| < 3 then None
    else
      var n := OctetCount(Unescape(s));
      if |s| < 3 * n then None
      else
        var code := CharOf(UnescapeAll(s, n));
        var rest := Decode(s[3 * n..]);
        if !IsCodePoint(code) || rest.None? then None else Some([code as char] + rest.value)
  }

  lemma SixBitGroups(n: nat)
    ensures n == n / 0x40 * 0x40 + n % 0x40
    ensures n / 0x40 == n / 0x1000 * 0x40 + n / 0x40 % 0x40
    ensures n / 0x1000 == n / 0x4_0000 * 0x40 + n / 0x1000 % 0x40
  {
  }

  lemma OctetsDecode(c: char)
    ensures OctetCount(Octets(c)[0]) == |Octets(c)|
    ensures CharOf(Octets(c)) == c as int
  {
    SixBitGroups(c as int);
  }

  lemma UnescapeEscape(o: Octet, rest: string)
    ensures var s := Escape(o) + rest; s[0] == '%' && Unescape(s) == o && s[3..] == rest
  {
    var s, escape := Escape(o) + rest, Escape(o);
    assert s[1] == escape[1] && s[2] == escape[2];
    assert HexValue(escape[1]) == o / 16 && HexValue(escape[2]) == o % 16;
  }

  lemma FirstEscape(o: seq<Octet>, rest: string)
    requires o != []
    ensures var s := EscapeAll(o) + rest;
            s[0] == '%' && Unescape(s) == o[0] && s[3..] == EscapeAll(o[1..]) + rest
  {
    assert EscapeAll(o) + rest == Escape(o[0]) + (EscapeAll(o[1..]) + rest);
    UnescapeEscape(o[0], EscapeAll(o[1..]) + rest);
  }

  lemma {:induction false} EscapesUndone(o: seq<Octet>, rest: string)
    ensures UnescapeAll(EscapeAll(o) + rest, |o|) == o
    ensures (EscapeAll(o) + rest)[3 * |o|..] == rest
  {
    if o != [] {
      var s := EscapeAll(o) + rest;
      EscapesUndone(o[1..], rest);
      FirstEscape(o, rest);
      assert s[3 * |o|..] == s[3..][3 * |o[1..]|..];
    }
  }

  lemma EscapesDecode(o: seq<Octet>, rest: string)
    requires 1 <= |o| == OctetCount(o[0]) && IsCodePoint(CharOf(o)) && Decode(rest).Some?
    ensures Decode(EscapeAll(o) + rest) == Some([CharOf(o) as char] + Decode(rest).value)
  {
    FirstEscape(o, rest);
    EscapesUndone(o, rest);
  }

  lemma EncodedCharDecodes(c: char, rest: string)
    requires Decode(rest).Some?
    ensures Decode(EncodeChar(c) + rest) == Some([c] + Decode(rest).value)
  {
    if Unreserved(c) {
      assert (EncodeChar(c) + rest)[1..] == rest;
    } else {
      OctetsDecode(c);
      EscapesDecode(Octets(c), rest);
    }
  }

  /** Decoding undoes encoding. */
  lemma {:induction false} DecodeEncode(s: string)
    ensures Decode(Encode(s)) == Some(s)
  {
    if s != "" {
      DecodeEncode(s[1..]);
      EncodedCharDecodes(s[0], Encode(s[1..]));
      assert s == [s[0]] + s[1..];
    }
  }

  lemma {:induction false} EscapeHasNoBar(o: seq<Octet>)
    ensures '|' !in EscapeAll(o)
  {
    if o != [] {
      EscapeHasNoBar(o[1..]);
    }
  }

  /** The encoding never contains the separator. */
  lemma {:induction false} EncodeHasNoBar(s: string)
    ensures '|' !in Encode(s)
  {
    if s != "" {
      EncodeHasNoBar(s[1..]);
      EscapeHasNoBar(Octets(s[0]));
    }
  }

  // ---------------------------------------------------------------- join and split

  function Join(parts: seq<string>): string
    requires parts != []
  {
    if |parts| == 1 then parts[0] else parts[0] + "|" + Join(parts[1..])
  }

  function Split(s: string): (parts: seq<string>)
    ensures parts != []
  {
    if s == "" then [""]
    else
      var rest := Split(s[1..]);
      if s[0] == '|' then [""] + rest else [[s[0]] + rest[0]] + rest[1..]
  }

  lemma {:induction false} SplitFirst(part: string, rest: string)
    requires '|' !in part
    ensures Split(part) == [part]
    ensures Split(part + "|" + rest) == [part] + Split(rest)
  {
    if part == "" {
      assert ("|" + rest)[1..] == rest;
    } else {
      SplitFirst(part[1..], rest);
      assert (part + "|" + rest)[1..] == part[1..] + "|" + rest;
      assert part == [part[0]] + part[1..];
    }
  }

  lemma {:induction false} SplitJoin(parts: seq<string>)
    requires parts != [] && forall i :: 0 <= i < |parts| ==> '|' !in parts[i]
    ensures Split(Join(parts)) == parts
  {
    if |parts| == 1 {
      SplitFirst(parts[0], "");
    } else {
      SplitJoin(parts[1..]);
      SplitFirst(parts[0], Join(parts[1..]));
      assert parts == [parts[0]] + parts[1..];
    }
  }

  // ---------------------------------------------------------------- the key

  /** What a slot is: the account, the owner's table, the field, and the owner by its id or by a
      temporary key. */
  datatype Identity = Identity(accountId: string, ownerTable: string, fieldKey: string, byOwner: bool, id: string)

  function CleanText(s: Option<string>): Option<string> {
    if s.None? || Trim(s.value) == "" then None else Some(Trim(s.value))
  }

  /** A text is clean when something other than white space is left of it. */
  lemma CleanTextReads(s: string)
    ensures CleanText(None) == None
    ensures CleanText(Some(s)) == None <==> Blank(s)
    ensures !Blank(s) ==> CleanText(Some(s)) == Some(Trim(s))
  {
    var left, right := TrimTakesSpace(s);
    TrimIsTrimmed(s);
    assert Trim(s) != "" ==> Trim(s)[0] in s;
  }

  predicate Set(s: Option<string>) {
    s.Some? && s.value != ""
  }

  /** The slot that the inputs describe, if they describe one. */
  function IdentityOf(accountId: Option<string>, ownerTable: Option<string>, fieldKey: Option<string>,
                      ownerId: Option<string>, ownerTempKey: Option<string>): Option<Identity> {
    var account, table, field := CleanText(accountId), CleanText(ownerTable), CleanText(fieldKey);
    if account.None? || table.None? || field.None? then None
    else if Set(ownerId) then Some(Identity(account.value, table.value, field.value, true, ownerId.value))
    else if Set(ownerTempKey) then Some(Identity(account.value, table.value, field.value, false, ownerTempKey.value))
    else None
  }

  function KeyOf(i: Identity): string {
    Join([Encode(i.accountId), Encode(i.ownerTable), Encode(i.fieldKey), if i.byOwner then "owner" else "temp", Encode(i.id)])
  }

  function BuildMediaIdentityKey(accountId: Option<string>, ownerTable: Option<string>, fieldKey: Option<string>,
                                 ownerId: Option<string>, ownerTempKey: Option<string>): Option<string> {
    var i := IdentityOf(accountId, ownerTable, fieldKey, ownerId, ownerTempKey);
    if i.None? then None else Some(KeyOf(i.value))
  }

  function ParseKey(key: string): Option<Identity> {
    var parts := Split(key);
    if |parts| != 5 || parts[3] !in {"owner", "temp"} then None
    else
      var account, table, field, id := Decode(parts[0]), Decode(parts[1]), Decode(parts[2]), Decode(parts[4]);
      if account.None? || table.None? || field.None? || id.None? then None
      else Some(Identity(account.value, table.value, field.value, parts[3] == "owner", id.value))
  }

  /** The key can be parsed back to its account, table, field and owner or temporary id. */
  lemma KeyRoundTrip(i: Identity)
    ensures ParseKey(KeyOf(i)) == Some(i)
  {
    var parts := [Encode(i.accountId), Encode(i.ownerTable), Encode(i.fieldKey), if i.byOwner then "owner" else "temp", Encode(i.id)];
    EncodeHasNoBar(i.accountId);
    EncodeHasNoBar(i.ownerTable);
    EncodeHasNoBar(i.fieldKey);
    EncodeHasNoBar(i.id);
    SplitJoin(parts);
    DecodeEncode(i.accountId);
    DecodeEncode(i.ownerTable);
    DecodeEncode(i.fieldKey);
    DecodeEncode(i.id);
  }

  /** A key exists for a clean account, table and field with an owner or, failing that, a temporary
      owner, and names exactly those. */
  lemma KeyNamesSlot(accountId: Option<string>, ownerTable: Option<string>, fieldKey: Option<string>,
                     ownerId: Option<string>, ownerTempKey: Option<string>)
    ensures var key := BuildMediaIdentityKey(accountId, ownerTable, fieldKey, ownerId, ownerTempKey);
            && (key.Some? <==>
                && CleanText(accountId).Some? && CleanText(ownerTable).Some? && CleanText(fieldKey).Some?
                && (ownerId !in {None, Some("")} || ownerTempKey !in {None, Some("")}))
            && (key.Some? ==>
                  var byOwner := ownerId !in {None, Some("")};
                  ParseKey(key.value) ==
                  Some(Identity(CleanText(accountId).value, CleanText(ownerTable).value, CleanText(fieldKey).value, byOwner,
                                if byOwner then ownerId.value else ownerTempKey.value)))
  {
    var i := IdentityOf(accountId, ownerTable, fieldKey, ownerId, ownerTempKey);
    if i.Some? {
      KeyRoundTrip(i.value);
    }
  }

  ghost predicate NoSpace(s: string) {
    forall c :: c in s ==> !IsSpace(c)
  }

  lemma {:induction false} EscapeHasNoSpace(o: seq<Octet>)
    ensures NoSpace(EscapeAll(o))
  {
    if o != [] {
      EscapeHasNoSpace(o[1..]);
    }
  }

  lemma {:induction false} EncodeHasNoSpace(s: string)
    ensures NoSpace(Encode(s))
  {
    if s != "" {
      EncodeHasNoSpace(s[1..]);
      EscapeHasNoSpace(Octets(s[0]));
    }
  }

  lemma {:induction false} JoinHasNoSpace(parts: seq<string>)
    requires parts != [] && forall i :: 0 <= i < |parts| ==> NoSpace(parts[i])
    ensures NoSpace(Join(parts)) && (|parts| > 1 ==> Join(parts) != "")
  {
    if |parts| > 1 {
      JoinHasNoSpace(parts[1..]);
    }
  }

  /** Cleaning leaves a key as it is. */
  lemma KeyIsClean(i: Identity)
    ensures CleanText(Some(KeyOf(i))) == Some(KeyOf(i))
  {
    var parts := [Encode(i.accountId), Encode(i.ownerTable), Encode(i.fieldKey), if i.byOwner then "owner" else "temp", Encode(i.id)];
    EncodeHasNoSpace(i.accountId);
    EncodeHasNoSpace(i.ownerTable);
    EncodeHasNoSpace(i.fieldKey);
    EncodeHasNoSpace(i.id);
    JoinHasNoSpace(parts);
    TrimFixes(KeyOf(i));
  }

  /** Two slots have the same key only if they are the same slot. */
  lemma KeyInjective(i: Identity, j: Identity)
    ensures KeyOf(i) == KeyOf(j) <==> i == j
  {
    KeyRoundTrip(i);
    KeyRoundTrip(j);
  }
}
