/** Cursor paging: the url-safe text of a cursor, and walking a table page by page while it grows. */
module Pagination {
  import opened Options
  import opened Sequences

  type Byte = n: int | 0 <= n < 256

  type Sextet = n: int | 0 <= n < 64

  // ---- base64url, section 5 of RFC 4648

  function CharOf(v: Sextet): char {
    if v < 26 then ('A' as int + v) as char
    else if v < 52 then ('a' as int + (v - 26)) as char
    else if v < 62 then ('0' as int + (v - 52)) as char
    else if v == 62 then '-' else '_'
  }

  function ValueOf(c: char): Option<Sextet> {
    if 'A' <= c <= 'Z' then Some(c as int - 'A' as int)
    else if 'a' <= c <= 'z' then Some(c as int - 'a' as int + 26)
    else if '0' <= c <= '9' then Some(c as int - '0' as int + 52)
    else if c == '-' then Some(62)
    else if c == '_' then Some(63)
    else None
  }

  function Base64(b: seq<Byte>): string {
    if b == [] then ""
    else if |b| == 1 then [CharOf(b[0] / 4), CharOf(b[0] % 4 * 16), '=', '=']
    else if |b| == 2 then
      [CharOf(b[0] / 4), CharOf(b[0] % 4 * 16 + b[1] / 16), CharOf(b[1] % 16 * 4), '=']
    else
      [CharOf(b[0] / 4), CharOf(b[0] % 4 * 16 + b[1] / 16), CharOf(b[1] % 16 * 4 + b[2] / 64), CharOf(b[2] % 64)]
      + Base64(b[3..])
  }

  /** One group of four characters; padding is allowed in the last group only. */
  function Group(g: string, last: bool): Option<seq<Byte>>
    requires |g| == 4
  {
    var v0, v1, v2, v3 := ValueOf(g[0]), ValueOf(g[1]), ValueOf(g[2]), ValueOf(g[3]);
    if v0.None? || v1.None? then None
    else
      var b0 := v0.value * 4 + v1.value / 16;
      if last && g[2] == '=' && g[3] == '=' then Some([b0])
      else if v2.None? then None
      else
        var b1 := v1.value % 16 * 16 + v2.value / 4;
        if last && g[3] == '=' then Some([b0, b1])
        else if v3.None? then None
        else Some([b0, b1, v2.value % 4 * 64 + v3.value])
  }

  function Unbase64(s: string): Option<seq<Byte>> {
    if s == "" then Some([])
    else if |s| < 4 then None
    else
      var head := Group(s[..4], |s| == 4);
      var tail := Unbase64(s[4..]);
      if head.None? || tail.None? then None else Some(head.value + tail.value)
  }

  function StripPadding(s: string): string {
    if s != "" && s[|s| - 1] == '=' then StripPadding(s[..|s| - 1]) else s
  }

  function Padding(n: nat): string {
    if n == 0 then "" else "=" + Padding(n - 1)
  }

  function EncodeCursor(raw: seq<Byte>): string {
    StripPadding(Base64(raw))
  }

  function DecodeCursor(cursor: string): Option<seq<Byte>> {
    Unbase64(cursor + Padding((-|cursor|) % 4))
  }

  lemma ValueOfChar(v: Sextet)
    ensures ValueOf(CharOf(v)) == Some(v) && CharOf(v) != '='
  {
  }

  lemma StripLast(s: string, c: char)
    ensures c == '=' ==> StripPadding(s + [c]) == StripPadding(s)
    ensures c != '=' ==> StripPadding(s + [c]) == s + [c]
  {
    assert (s + [c])[..|s|] == s;
  }

  lemma {:induction false} StripKeepsHead(head: string, s: string)
    requires head != "" && head[|head| - 1] != '='
    ensures StripPadding(head + s) == head + StripPadding(s)
    decreases |s|
  {
    if s == "" {
      assert head + s == head;
    } else if s[|s| - 1] == '=' {
      assert (head + s)[..|head + s| - 1] == head + s[..|s| - 1];
      StripKeepsHead(head, s[..|s| - 1]);
    }
  }

  /** Six-bit pieces put together give the byte they came from. */
  lemma Pieces(b: Byte)
    ensures b / 4 < 64 && b % 4 * 16 < 64 && b / 16 < 16 && b % 16 * 4 < 64 && b / 64 < 4 && b % 64 < 64
    ensures b == b / 4 * 4 + b % 4 && b == b / 16 * 16 + b % 16 && b == b / 64 * 64 + b % 64
  {
  }

  lemma FirstByte(b: Byte, low: int)
    requires 0 <= low < 16
    ensures b / 4 * 4 + (b % 4 * 16 + low) / 16 == b && (b % 4 * 16 + low) % 16 == low
  {
  }

  lemma SecondByte(b: Byte, low: int)
    requires 0 <= low < 4
    ensures b / 16 * 16 + (b % 16 * 4 + low) / 4 == b && (b % 16 * 4 + low) % 4 == low
  {
  }

  lemma OneByteGroup(b: seq<Byte>)
    requires |b| == 1
    ensures EncodeCursor(b) == Base64(b)[..2] && |Base64(b)| == 4
    ensures Group(Base64(b), true) == Some(b)
  {
    Pieces(b[0]);
    FirstByte(b[0], 0);
    ValueOfChar(b[0] / 4);
    ValueOfChar(b[0] % 4 * 16);
    hide CharOf, ValueOf;
    var head := [CharOf(b[0] / 4), CharOf(b[0] % 4 * 16)];
    assert Base64(b) == head + ['='] + ['='];
    StripLast(head + ['='], '=');
    StripLast(head, '=');
    assert b == [b[0]];
  }

  lemma TwoByteGroup(b: seq<Byte>)
    requires |b| == 2
    ensures EncodeCursor(b) == Base64(b)[..3] && |Base64(b)| == 4
    ensures Group(Base64(b), true) == Some(b)
  {
    Pieces(b[0]);
    Pieces(b[1]);
    FirstByte(b[0], b[1] / 16);
    SecondByte(b[1], 0);
    ValueOfChar(b[0] / 4);
    ValueOfChar(b[0] % 4 * 16 + b[1] / 16);
    ValueOfChar(b[1] % 16 * 4);
    hide CharOf, ValueOf;
    assert Base64(b) == Base64(b)[..3] + ['='];
    StripLast(Base64(b)[..3], '=');
    assert b == [b[0], b[1]];
  }

  lemma FullGroup(b: seq<Byte>, last: bool)
    requires |b| >= 3
    ensures
      var s := Base64(b);
      && |s| >= 4 && s[4..] == Base64(b[3..]) && s[3] != '='
      && Group(s[..4], last) == Some(b[..3])
  {
    Pieces(b[0]);
    Pieces(b[1]);
    Pieces(b[2]);
    FirstByte(b[0], b[1] / 16);
    SecondByte(b[1], b[2] / 64);
    ValueOfChar(b[0] / 4);
    ValueOfChar(b[0] % 4 * 16 + b[1] / 16);
    ValueOfChar(b[1] % 16 * 4 + b[2] / 64);
    ValueOfChar(b[2] % 64);
    hide CharOf, ValueOf;
    assert b[..3] == [b[0], b[1], b[2]];
  }

  lemma PaddingIs(n: nat)
    requires n < 3
    ensures Padding(n) == if n == 0 then "" else if n == 1 then "=" else "=="
  {
    assert Padding(0) == "" && Padding(1) == "=" + Padding(0);
  }

  ghost predicate PadsBack(s: string, full: string) {
    s + Padding((-|s|) % 4) == full
  }

  lemma PadsBackAfter(head: string, s: string, full: string)
    requires |head| == 4 && PadsBack(s, full)
    ensures PadsBack(head + s, head + full)
  {
    assert (-|head + s|) % 4 == (-|s|) % 4;
    assert head + s + Padding((-|s|) % 4) == head + (s + Padding((-|s|) % 4));
  }

  /** Stripping the padding loses nothing: as many `=` as the length calls for put it back. */
  lemma {:induction false} PaddingComesBack(b: seq<Byte>)
    ensures PadsBack(EncodeCursor(b), Base64(b))
    decreases |b|
  {
    PaddingIs(0);
    PaddingIs(1);
    PaddingIs(2);
    if |b| == 1 {
      OneByteGroup(b);
    } else if |b| == 2 {
      TwoByteGroup(b);
    } else if |b| >= 3 {
      FullGroup(b, true);
      PaddingComesBack(b[3..]);
      var head, rest := Base64(b)[..4], Base64(b[3..]);
      assert Base64(b) == head + rest;
      hide Base64, PadsBack, Padding, Group;
      StripKeepsHead(head, rest);
      PadsBackAfter(head, EncodeCursor(b[3..]), rest);
    }
  }

  lemma LastGroupAlone(s: string)
    requires |s| == 4
    ensures Unbase64(s) == Group(s, true)
  {
    assert s[4..] == "" && s[..4] == s;
    var g := Group(s, true);
    assert g.Some? ==> g.value + [] == g.value;
    hide Group;
  }

  lemma {:induction false} Unbase64Inverts(b: seq<Byte>)
    ensures Unbase64(Base64(b)) == Some(b)
    decreases |b|
  {
    hide Group;
    if |b| == 1 {
      OneByteGroup(b);
      LastGroupAlone(Base64(b));
    } else if |b| == 2 {
      TwoByteGroup(b);
      LastGroupAlone(Base64(b));
    } else if |b| >= 3 {
      FullGroup(b, |Base64(b)| == 4);
      Unbase64Inverts(b[3..]);
      assert b == b[..3] + b[3..];
    }
  }

  /** A cursor's text decodes to the bytes it was made from, for every length. */
  lemma CursorRoundTrip(raw: seq<Byte>)
    ensures DecodeCursor(EncodeCursor(raw)) == Some(raw)
  {
    PaddingComesBack(raw);
    Unbase64Inverts(raw);
  }

  // ---- The text itself, bit by bit

  ghost function Letters(from: char, n: nat): (letters: string)
    requires from as int + n <= 128
    ensures |letters| == n
  {
    seq(n, i requires 0 <= i < n => (from as int + i) as char)
  }

  /** The url-safe alphabet: capitals, small letters, digits, hyphen and underscore. */
  ghost const ALPHABET: string := Letters('A', 26) + Letters('a', 26) + Letters('0', 10) + "-_"

  ghost function ByteAt(raw: seq<Byte>, i: nat): Byte {
    if i < |raw| then raw[i] else 0
  }

  /** The `j`-th six bits of the bytes, filled up with zeros. */
  ghost function SixBits(raw: seq<Byte>, j: nat): int {
    var two := ByteAt(raw, 6 * j / 8) * 256 + ByteAt(raw, 6 * j / 8 + 1);
    var below := if j % 4 == 0 then 1024 else if j % 4 == 1 then 16 else if j % 4 == 2 then 64 else 256;
    two / below % 64
  }

  lemma AlphabetIs(v: Sextet)
    ensures |ALPHABET| == 64 && ALPHABET[v] == CharOf(v)
  {
  }

  lemma TopBits(a: Byte, b: Byte)
    ensures (a * 256 + b) / 1024 % 64 == a / 4
  {
    assert (a * 256 + b) / 1024 == a / 4;
  }

  lemma NextBits(a: Byte, b: Byte)
    ensures (a * 256 + b) / 16 % 64 == a % 4 * 16 + b / 16
  {
    assert (a * 256 + b) / 16 == 64 * (a / 4) + (a % 4 * 16 + b / 16);
  }

  lemma LowBits(a: Byte, b: Byte)
    ensures (a * 256 + b) / 64 % 64 == a % 16 * 4 + b / 64
  {
    assert (a * 256 + b) / 64 == 64 * (a / 16) + (a % 16 * 4 + b / 64);
  }

  lemma LastBits(a: Byte, b: Byte)
    ensures (a * 256 + b) / 256 % 64 == a % 64
  {
    assert (a * 256 + b) / 256 == a;
  }

  lemma Bits0(raw: seq<Byte>)
    ensures SixBits(raw, 0) == ByteAt(raw, 0) / 4
  {
    hide ByteAt;
    TopBits(ByteAt(raw, 0), ByteAt(raw, 1));
  }

  lemma Bits1(raw: seq<Byte>)
    ensures SixBits(raw, 1) == ByteAt(raw, 0) % 4 * 16 + ByteAt(raw, 1) / 16
  {
    hide ByteAt;
    NextBits(ByteAt(raw, 0), ByteAt(raw, 1));
  }

  lemma Bits2(raw: seq<Byte>)
    ensures SixBits(raw, 2) == ByteAt(raw, 1) % 16 * 4 + ByteAt(raw, 2) / 64
  {
    hide ByteAt;
    LowBits(ByteAt(raw, 1), ByteAt(raw, 2));
  }

  lemma Bits3(raw: seq<Byte>)
    ensures SixBits(raw, 3) == ByteAt(raw, 2) % 64
  {
    hide ByteAt;
    LastBits(ByteAt(raw, 2), ByteAt(raw, 3));
  }

  lemma FirstFour(raw: seq<Byte>)
    ensures SixBits(raw, 0) == ByteAt(raw, 0) / 4
    ensures SixBits(raw, 1) == ByteAt(raw, 0) % 4 * 16 + ByteAt(raw, 1) / 16
    ensures SixBits(raw, 2) == ByteAt(raw, 1) % 16 * 4 + ByteAt(raw, 2) / 64
    ensures SixBits(raw, 3) == ByteAt(raw, 2) % 64
  {
    hide SixBits, ByteAt;
    Bits0(raw);
    Bits1(raw);
    Bits2(raw);
    Bits3(raw);
  }

  lemma LaterBits(raw: seq<Byte>, j: nat)
    requires |raw| >= 3 && j >= 4
    ensures SixBits(raw, j) == SixBits(raw[3..], j - 4)
  {
    assert 6 * j / 8 == 6 * (j - 4) / 8 + 3;
  }

  ghost predicate Spells(text: string, raw: seq<Byte>) {
    && |text| == (8 * |raw| + 5) / 6
    && forall j :: 0 <= j < |text| ==> 0 <= SixBits(raw, j) < 64 && text[j] == CharOf(SixBits(raw, j))
  }

  lemma ShortSpells(raw: seq<Byte>)
    requires |raw| < 3
    ensures Spells(EncodeCursor(raw), raw)
  {
    FirstFour(raw);
    hide SixBits, CharOf;
    if |raw| == 1 {
      OneByteGroup(raw);
    } else if |raw| == 2 {
      TwoByteGroup(raw);
    }
  }

  lemma SpellsAfter(raw: seq<Byte>, rest: string)
    requires |raw| >= 3 && Spells(rest, raw[3..])
    ensures Spells(Base64(raw)[..4] + rest, raw)
  {
    FirstFour(raw);
    hide CharOf, SixBits;
    var text := Base64(raw)[..4] + rest;
    forall j | 0 <= j < |text|
      ensures 0 <= SixBits(raw, j) < 64 && text[j] == CharOf(SixBits(raw, j))
    {
      if j >= 4 {
        LaterBits(raw, j);
        assert text[j] == rest[j - 4];
      }
    }
  }

  lemma {:induction false} EncodeSpells(raw: seq<Byte>)
    ensures Spells(EncodeCursor(raw), raw)
    decreases |raw|
  {
    if |raw| < 3 {
      ShortSpells(raw);
    } else {
      FullGroup(raw, true);
      EncodeSpells(raw[3..]);
      SpellsAfter(raw, EncodeCursor(raw[3..]));
      var head, rest := Base64(raw)[..4], Base64(raw[3..]);
      assert Base64(raw) == head + rest;
      hide Base64, Group, Spells;
      StripKeepsHead(head, rest);
    }
  }

  /** A cursor's text spells its bytes six bits at a time, from the top, with no padding. */
  lemma CursorSpells(raw: seq<Byte>)
    ensures |EncodeCursor(raw)| == (8 * |raw| + 5) / 6
    ensures forall j :: 0 <= j < |EncodeCursor(raw)| ==>
              0 <= SixBits(raw, j) < |ALPHABET| && EncodeCursor(raw)[j] == ALPHABET[SixBits(raw, j)]
  {
    EncodeSpells(raw);
    hide SixBits, EncodeCursor;
    forall j | 0 <= j < |EncodeCursor(raw)|
      ensures 0 <= SixBits(raw, j) < |ALPHABET| && EncodeCursor(raw)[j] == ALPHABET[SixBits(raw, j)]
    {
      AlphabetIs(SixBits(raw, j));
    }
  }

  // ---- The payload: {"id":"..."} with the id in decimal digits

  function Ascii(text: string): seq<Byte>
    requires forall i :: 0 <= i < |text| ==> text[i] < 128 as char
  {
    seq(|text|, i requires 0 <= i < |text| => text[i] as int)
  }

  const BEFORE: seq<Byte> := Ascii("{\"id\":\"")
  const AFTER: seq<Byte> := Ascii("\"}")

  function Digits(n: nat): (digits: seq<Byte>)
    ensures digits != []
  {
    if n < 10 then ['0' as int + n] else Digits(n / 10) + ['0' as int + n % 10]
  }

  function ParseDigits(digits: seq<Byte>): Option<nat> {
    if digits == [] then None
    else
      var last := digits[|digits| - 1];
      if !('0' as int <= last <= '9' as int) then None
      else if |digits| == 1 then Some(last - '0' as int)
      else
        var rest := ParseDigits(digits[..|digits| - 1]);
        if rest.None? then None else Some(10 * rest.value + (last - '0' as int))
  }

  function Payload(id: nat): seq<Byte> {
    BEFORE + Digits(id) + AFTER
  }

  function ParsePayload(raw: seq<Byte>): Option<nat> {
    if |raw| < |BEFORE| + |AFTER| || raw[..|BEFORE|] != BEFORE || raw[|raw| - |AFTER|..] != AFTER then None
    else ParseDigits(raw[|BEFORE|..|raw| - |AFTER|])
  }

  function CursorFor(id: nat): string {
    EncodeCursor(Payload(id))
  }

  lemma {:induction false} DigitsAreDecimal(n: nat)
    ensures forall i :: 0 <= i < |Digits(n)| ==> 48 <= Digits(n)[i] <= 57
    ensures n > 0 ==> Digits(n)[0] != 48
    ensures n == 0 ==> Digits(n) == [48]
  {
    if n >= 10 {
      DigitsAreDecimal(n / 10);
      assert Digits(n)[0] == Digits(n / 10)[0];
    }
  }

  /** The payload's bytes: a brace, the quoted name, a colon, the id's decimal digits in quotes, a brace. */
  lemma PayloadSpells(id: nat)
    ensures
      var raw := Payload(id);
      && |raw| >= 10
      && raw[..7] == [123, 34, 105, 100, 34, 58, 34] && raw[|raw| - 2..] == [34, 125]
      && (forall i :: 7 <= i < |raw| - 2 ==> 48 <= raw[i] <= 57)
      && (id > 0 ==> raw[7] != 48) && (id == 0 ==> |raw| == 10)
  {
    DigitsAreDecimal(id);
    hide Digits;
    var raw := Payload(id);
    assert BEFORE == [123, 34, 105, 100, 34, 58, 34] && AFTER == [34, 125];
    assert raw[7] == Digits(id)[0];
    assert forall i :: 7 <= i < |raw| - 2 ==> raw[i] == Digits(id)[i - 7];
  }

  /** The id a cursor stands for; a missing or damaged one starts from the first page. */
  function CursorId(cursor: Option<string>): Option<nat> {
    if cursor.None? || cursor.value == "" then None
    else
      var raw := DecodeCursor(cursor.value);
      if raw.None? then None else ParsePayload(raw.value)
  }

  lemma {:induction false} DigitsReadBack(n: nat)
    ensures ParseDigits(Digits(n)) == Some(n)
  {
    if n >= 10 {
      DigitsReadBack(n / 10);
      var digits := Digits(n);
      assert digits[..|digits| - 1] == Digits(n / 10);
    }
  }

  lemma PayloadReadsBack(id: nat)
    ensures ParsePayload(Payload(id)) == Some(id)
  {
    var raw := Payload(id);
    DigitsReadBack(id);
    assert raw[..|BEFORE|] == BEFORE && raw[|raw| - |AFTER|..] == AFTER;
    assert raw[|BEFORE|..|raw| - |AFTER|] == Digits(id);
  }

  /** The text handed out for a row leads back to that row's id. */
  lemma CursorIdRoundTrip(id: nat)
    ensures CursorId(Some(CursorFor(id))) == Some(id)
  {
    CursorRoundTrip(Payload(id));
    PayloadReadsBack(id);
    hide EncodeCursor, Unbase64, ParsePayload, Digits;
    assert |Payload(id)| >= |AFTER| > 0;
    EmptyCursor();
  }

  lemma EmptyCursor()
    ensures DecodeCursor("") == Some([])
  {
  }

  // ---- Walking a table

  datatype Page = Page(items: seq<nat>, cursor: Option<string>, hasMore: bool)

  /** One row more than asked for tells whether there is another page; it is not shown. */
  function BuildCursorPage(items: seq<nat>, limit: nat): Page {
    var hasMore := |items| > limit;
    var visible := if hasMore then items[..limit] else items;
    Page(visible, if hasMore && visible != [] then Some(CursorFor(visible[|visible| - 1])) else None, hasMore)
  }

  /** A table is its rows' ids by falling id: newer rows have larger ids and come first. */
  predicate Falls(table: seq<nat>) {
    forall i, j :: 0 <= i < j < |table| ==> table[i] > table[j]
  }

  function IsBelow(before: Option<nat>): nat -> bool {
    (id: nat) => before.Some? ==> id < before.value
  }

  /** WHERE id < before ORDER BY id DESC LIMIT limit + 1. */
  function ListCursor(table: seq<nat>, before: Option<nat>, limit: nat): seq<nat> {
    var rows := Filter(table, IsBelow(before));
    if |rows| > limit + 1 then rows[..limit + 1] else rows
  }

  datatype Walk = Walk(rows: seq<nat>, finished: bool)

  /** A client following cursors; each page is read from the table as it is by then. */
  function Follow(tables: seq<seq<nat>>, cursor: Option<string>, limit: nat): Walk
    decreases |tables|
  {
    if tables == [] then Walk([], false)
    else
      var page := BuildCursorPage(ListCursor(tables[0], CursorId(cursor), limit), limit);
      if page.cursor.None? then Walk(page.items, true)
      else
        var rest := Follow(tables[1..], page.cursor, limit);
        Walk(page.items + rest.rows, rest.finished)
  }

  /** `table` is `initial` after rows with larger ids were inserted. */
  predicate GrownFrom(table: seq<nat>, initial: seq<nat>) {
    && Falls(table)
    && |initial| <= |table|
    && table[|table| - |initial|..] == initial
  }

  lemma {:induction false} FilterAllOrNone(s: seq<nat>, p: nat -> bool)
    ensures (forall i :: 0 <= i < |s| ==> p(s[i])) ==> Filter(s, p) == s
    ensures (forall i :: 0 <= i < |s| ==> !p(s[i])) ==> Filter(s, p) == []
  {
    if s != [] {
      FilterAllOrNone(s[1..], p);
    }
  }

  /** The rows below the k-th initial row are the initial rows after it, whatever was inserted since. */
  lemma BelowIsSuffix(table: seq<nat>, initial: seq<nat>, k: nat)
    requires GrownFrom(table, initial) && 0 < k <= |initial|
    ensures Filter(table, IsBelow(Some(initial[k - 1]))) == initial[k..]
  {
    var cut := |table| - |initial| + k;
    var p := IsBelow(Some(initial[k - 1]));
    assert table[cut - 1] == initial[k - 1];
    assert table == table[..cut] + table[cut..];
    FilterAppend(table[..cut], table[cut..], p);
    forall i | 0 <= i < cut
      ensures !p(table[..cut][i])
    {
      assert i < cut - 1 ==> table[i] > table[cut - 1];
    }
    forall i | 0 <= i < |table[cut..]|
      ensures p(table[cut..][i])
    {
      assert table[cut - 1] > table[cut + i];
    }
    FilterAllOrNone(table[..cut], p);
    FilterAllOrNone(table[cut..], p);
    assert table[cut..] == initial[k..];
  }

  lemma PageOf(rest: seq<nat>, limit: nat)
    requires limit >= 1
    ensures
      var page := BuildCursorPage(if |rest| > limit + 1 then rest[..limit + 1] else rest, limit);
      if |rest| > limit then page == Page(rest[..limit], Some(CursorFor(rest[limit - 1])), true)
      else page == Page(rest, None, false)
  {
    if |rest| > limit + 1 {
      assert rest[..limit + 1][..limit] == rest[..limit];
    }
  }

  /** How many rows so many pages can show. */
  function Room(pages: nat, limit: nat): nat {
    if pages == 0 then 0 else limit + Room(pages - 1, limit)
  }

  lemma FollowOnce(tables: seq<seq<nat>>, cursor: Option<string>, limit: nat, rest: seq<nat>)
    requires limit >= 1 && tables != [] && Filter(tables[0], IsBelow(CursorId(cursor))) == rest
    ensures
      if |rest| > limit then
        var later := Follow(tables[1..], Some(CursorFor(rest[limit - 1])), limit);
        Follow(tables, cursor, limit) == Walk(rest[..limit] + later.rows, later.finished)
      else Follow(tables, cursor, limit) == Walk(rest, true)
  {
    hide CursorId, CursorFor;
    PageOf(rest, limit);
  }

  ghost predicate AllGrown(tables: seq<seq<nat>>, initial: seq<nat>) {
    forall i :: 0 <= i < |tables| ==> GrownFrom(tables[i], initial)
  }

  lemma CutPage(initial: seq<nat>, k: nat, limit: nat)
    requires limit >= 1 && k + limit <= |initial|
    ensures initial[k..][limit - 1] == initial[k + limit - 1]
    ensures initial[k..] == initial[k..][..limit] + initial[k + limit..]
  {
  }

  lemma FirstAndTail(tables: seq<seq<nat>>, initial: seq<nat>, k: nat)
    requires tables != [] && AllGrown(tables, initial) && 0 < k <= |initial|
    ensures AllGrown(tables[1..], initial)
    ensures Filter(tables[0], IsBelow(Some(initial[k - 1]))) == initial[k..]
  {
    BelowIsSuffix(tables[0], initial, k);
  }

  lemma {:induction false} FollowReturnsSuffix(tables: seq<seq<nat>>, initial: seq<nat>, k: nat, limit: nat)
    requires limit >= 1 && tables != [] && 0 < k <= |initial| && |initial| - k <= Room(|tables|, limit)
    requires AllGrown(tables, initial)
    ensures Follow(tables, Some(CursorFor(initial[k - 1])), limit) == Walk(initial[k..], true)
    decreases |tables|
  {
    hide AllGrown, Follow, Filter, IsBelow, CursorId, CursorFor;
    FirstAndTail(tables, initial, k);
    CursorIdRoundTrip(initial[k - 1]);
    FollowOnce(tables, Some(CursorFor(initial[k - 1])), limit, initial[k..]);
    if |initial| - k > limit {
      CutPage(initial, k, limit);
      FollowReturnsSuffix(tables[1..], initial, k + limit, limit);
    }
  }

  /** Every row that was there at the start comes back exactly once, newest first, within as many pages as
      the rows fill - one for an empty table - however many rows with larger ids arrive meanwhile. */
  lemma PagingReturnsInitialRows(tables: seq<seq<nat>>, limit: nat)
    requires limit >= 1 && tables != [] && |tables[0]| <= Room(|tables|, limit)
    requires AllGrown(tables, tables[0])
    ensures Follow(tables, None, limit) == Walk(tables[0], true)
  {
    var initial := tables[0];
    FilterAllOrNone(initial, IsBelow(None));
    FollowOnce(tables, None, limit, initial);
    if |initial| > limit {
      var tail := tables[1..];
      assert AllGrown(tail, initial);
      hide AllGrown, GrownFrom, Follow, Filter, IsBelow, CursorId, CursorFor;
      CutPage(initial, 0, limit);
      assert initial[0..] == initial;
      FollowReturnsSuffix(tail, initial, limit, limit);
    }
  }
}
