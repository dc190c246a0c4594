/**
 Keyset paging over the conversations of one actor, with opaque cursors: the JSON of the last key in
 unpadded base64url (RFC 4648, section 5).
 */
module Paging {
  import opened Options

  const MAX_CURSOR_LENGTH := 2048
  const MAX_CURSOR_JSON_BYTES := 512

  type byte = x: int | 0 <= x < 256
  type sextet = x: int | 0 <= x < 64

  // ---- base64url ----

  function Letter(v: sextet): char {
    if v < 26 then ('A' as int + v) as char
    else if v < 52 then ('a' as int + v - 26) as char
    else if v < 62 then ('0' as int + v - 52) as char
    else if v == 62 then '-'
    else '_'
  }

  /** Decoding also takes the two letters of the ordinary alphabet that the URL one replaces. */
  function Digit(c: char): Option<sextet> {
    if 'A' <= c <= 'Z' then Some(c as int - 'A' as int)
    else if 'a' <= c <= 'z' then Some(c as int - 'a' as int + 26)
    else if '0' <= c <= '9' then Some(c as int - '0' as int + 52)
    else if c == '-' || c == '+' then Some(62)
    else if c == '_' || c == '/' then Some(63)
    else None
  }

  function Group(x: byte, y: byte, z: byte): (g: seq<sextet>)
    ensures |g| == 4
  {
    [x / 4, x % 4 * 16 + y / 16, y % 16 * 4 + z / 64, z % 64]
  }

  /** Three bytes are four sextets; a rest of one or two bytes is two or three. */
  function Sextets(bytes: seq<byte>): seq<sextet> {
    if |bytes| >= 3 then Group(bytes[0], bytes[1], bytes[2]) + Sextets(bytes[3..])
    else if |bytes| == 2 then Group(bytes[0], bytes[1], 0)[..3]
    else if |bytes| == 1 then Group(bytes[0], 0, 0)[..2]
    else []
  }

  function Letters(values: seq<sextet>): (s: string)
    ensures |s| == |values|
  {
    if values == [] then [] else Letters(values[..|values| - 1]) + [Letter(values[|values| - 1])]
  }

  function Encode(bytes: seq<byte>): string {
    Letters(Sextets(bytes))
  }

  function First(a: sextet, b: sextet): byte {
    a * 4 + b / 16
  }

  function Second(b: sextet, c: sextet): byte {
    b % 16 * 16 + c / 4
  }

  function Third(c: sextet, d: sextet): byte {
    c % 4 * 64 + d
  }

  /** Bits left over in the last sextet are not looked at. */
  function Bytes(v: seq<sextet>): Option<seq<byte>> {
    if |v| >= 4 then
      match Bytes(v[4..])
      case Some(rest) => Some([First(v[0], v[1]), Second(v[1], v[2]), Third(v[2], v[3])] + rest)
      case None => None
    else if |v| == 3 then Some([First(v[0], v[1]), Second(v[1], v[2])])
    else if |v| == 2 then Some([First(v[0], v[1])])
    else if |v| == 1 then None
    else Some([])
  }

  function Digits(s: string): Option<seq<sextet>> {
    if s == [] then Some([])
    else
      match (Digits(s[..|s| - 1]), Digit(s[|s| - 1]))
      case (Some(init), Some(last)) => Some(init + [last])
      case _ => None
  }

  function Stripped(s: string): (r: string)
    ensures |r| <= |s|
  {
    if s != [] && s[|s| - 1] == '=' then Stripped(s[..|s| - 1]) else s
  }

  function Missing(n: nat): nat {
    (4 - n % 4) % 4
  }

  lemma MissingFew(n: nat)
    requires n % 4 != 1
    ensures Missing(n) <= 2
  {
  }

  function Padding(n: nat): string {
    seq(Missing(n), _ => '=')
  }

  /** Padding is added first; at most two padding characters may then stand at the end, and nowhere else. */
  function Decode(cursor: string): Option<seq<byte>> {
    var padded := cursor + Padding(|cursor|);
    var body := Stripped(padded);
    if |padded| - |body| > 2 then None
    else
      match Digits(body)
      case Some(values) => Bytes(values)
      case None => None
  }

  lemma DigitOfLetter(v: sextet)
    ensures Digit(Letter(v)) == Some(v) && Letter(v) != '='
  {
  }

  lemma {:induction false} DigitsOfLetters(values: seq<sextet>)
    ensures Digits(Letters(values)) == Some(values)
    ensures values != [] ==> Letters(values)[|values| - 1] != '='
  {
    if values != [] {
      var init, last := values[..|values| - 1], values[|values| - 1];
      DigitsOfLetters(init);
      DigitOfLetter(last);
      var s := Letters(values);
      assert s[..|s| - 1] == Letters(init) && s[|s| - 1] == Letter(last);
      assert values == init + [last];
    }
  }

  lemma BytesOfGroup(v: seq<sextet>, rest: seq<byte>)
    requires |v| >= 4 && Bytes(v[4..]) == Some(rest)
    ensures Bytes(v) == Some([First(v[0], v[1]), Second(v[1], v[2]), Third(v[2], v[3])] + rest)
  {
  }

  lemma BytesOfRest(a: sextet, b: sextet, c: sextet)
    ensures Bytes([a, b]) == Some([First(a, b)]) && Bytes([a, b, c]) == Some([First(a, b), Second(b, c)])
  {
  }

  lemma GroupGivesBytesBack(x: byte, y: byte, z: byte)
    ensures var g := Group(x, y, z); First(g[0], g[1]) == x && Second(g[1], g[2]) == y && Third(g[2], g[3]) == z
  {
  }

  lemma {:induction false} BytesOfSextets(bytes: seq<byte>)
    ensures Bytes(Sextets(bytes)) == Some(bytes)
  {
    if |bytes| >= 3 {
      var g, rest := Group(bytes[0], bytes[1], bytes[2]), bytes[3..];
      GroupGivesBytesBack(bytes[0], bytes[1], bytes[2]);
      BytesOfSextets(rest);
      assert (g + Sextets(rest))[4..] == Sextets(rest);
      BytesOfGroup(g + Sextets(rest), rest);
      assert bytes == [bytes[0], bytes[1], bytes[2]] + rest;
    } else if |bytes| > 0 {
      var y := if |bytes| == 2 then bytes[1] else 0;
      var g := Group(bytes[0], y, 0);
      GroupGivesBytesBack(bytes[0], y, 0);
      BytesOfRest(g[0], g[1], g[2]);
      assert g[..2] == [g[0], g[1]] && g[..3] == [g[0], g[1], g[2]];
      assert bytes == if |bytes| == 2 then [bytes[0], bytes[1]] else [bytes[0]];
    }
  }

  lemma {:induction false} SextetsLength(bytes: seq<byte>)
    ensures |Sextets(bytes)| == (4 * |bytes| + 2) / 3 && |Sextets(bytes)| % 4 != 1
  {
    if |bytes| >= 3 { SextetsLength(bytes[3..]); }
  }

  lemma {:induction false} StrippedPadding(s: string, n: nat)
    requires s == [] || s[|s| - 1] != '='
    ensures Stripped(s + seq(n, _ => '=')) == s
  {
    var padded := s + seq(n, _ => '=');
    if n == 0 {
      assert padded == s;
    } else {
      StrippedPadding(s, n - 1);
      assert padded[..|padded| - 1] == s + seq(n - 1, _ => '=');
    }
  }

  /** Unpadded encoding is undone by padding and decoding. */
  lemma DecodeOfEncode(bytes: seq<byte>)
    ensures Decode(Encode(bytes)) == Some(bytes)
  {
    BytesOfSextets(bytes);
    SextetsLength(bytes);
    DecodeOfLetters(Sextets(bytes));
  }

  lemma DecodeOfLetters(values: seq<sextet>)
    requires |values| % 4 != 1
    ensures Decode(Letters(values)) == Bytes(values)
  {
    DigitsOfLetters(values);
    MissingFew(|values|);
    StrippedPadding(Letters(values), Missing(|values|));
  }

  predicate UrlSafe(c: char) {
    'A' <= c <= 'Z' || 'a' <= c <= 'z' || '0' <= c <= '9' || c == '-' || c == '_'
  }

  /** A cursor can stand in a URL as it is, and no two byte strings share one. */
  lemma EncodeIsUrlSafe(bytes: seq<byte>, others: seq<byte>)
    ensures forall i | 0 <= i < |Encode(bytes)| :: UrlSafe(Encode(bytes)[i])
    ensures Encode(bytes) == Encode(others) ==> bytes == others
  {
    LettersAreUrlSafe(Sextets(bytes));
    DecodeOfEncode(bytes);
    DecodeOfEncode(others);
  }

  lemma {:induction false} LettersAreUrlSafe(values: seq<sextet>)
    ensures forall i | 0 <= i < |Letters(values)| :: UrlSafe(Letters(values)[i])
  {
    if values != [] { LettersAreUrlSafe(values[..|values| - 1]); }
  }

  /** The alphabet of RFC 4648, section 5, in its order: sample codes for all ranges and for every length of rest. */
  lemma KnownCodes()
    ensures Encode([0x66]) == "Zg" && Encode([0x66, 0x6f]) == "Zm8" && Encode([0x66, 0x6f, 0x6f]) == "Zm9v"
    ensures Encode([0x00, 0x10, 0x83]) == "ABCD" && Encode([0xfb, 0xef, 0xff]) == "--__"
  {
    RestCoded(0x66, 0x6f);
    GroupCoded(0x66, 0x6f, 0x6f);
    GroupCoded(0x00, 0x10, 0x83);
    GroupCoded(0xfb, 0xef, 0xff);
  }

  lemma GroupCoded(x: byte, y: byte, z: byte)
    ensures var g := Group(x, y, z); Encode([x, y, z]) == [Letter(g[0]), Letter(g[1]), Letter(g[2]), Letter(g[3])]
  {
    var bytes := [x, y, z];
    assert bytes[3..] == [] && Sextets(bytes[3..]) == [];
    assert Sextets(bytes) == Group(x, y, z) + [] == Group(x, y, z);
    LettersOfFour(Group(x, y, z));
  }

  lemma RestCoded(x: byte, y: byte)
    ensures Encode([x]) == [Letter(x / 4), Letter(x % 4 * 16)]
    ensures Encode([x, y]) == [Letter(x / 4), Letter(x % 4 * 16 + y / 16), Letter(y % 16 * 4)]
  {
    var one, two := [x], [x, y];
    assert Sextets(one) == Group(x, 0, 0)[..2] && Sextets(two) == Group(x, y, 0)[..3];
    LettersOfFour(Group(x, 0, 0));
    LettersOfFour(Group(x, y, 0));
  }

  lemma LettersOfFour(g: seq<sextet>)
    requires |g| == 4
    ensures Letters(g) == [Letter(g[0]), Letter(g[1]), Letter(g[2]), Letter(g[3])]
    ensures Letters(g[..3]) == [Letter(g[0]), Letter(g[1]), Letter(g[2])]
    ensures Letters(g[..2]) == [Letter(g[0]), Letter(g[1])]
  {
    assert g[..3][..2] == g[..2] && g[..2][..1] == g[..1] && g[..1][..0] == [];
    assert Letters(g[..1]) == Letters([]) + [Letter(g[0])] == [Letter(g[0])];
    assert Letters(g[..2]) == [Letter(g[0]), Letter(g[1])];
    assert Letters(g[..3]) == Letters(g[..2]) + [Letter(g[2])];
  }

  // ---- cursors ----

  datatype Key = Key(updatedAt: int, id: nat)

  /** The JSON text of a key and its parser, of which only this is assumed. */
  datatype Json = Json(write: Key -> seq<byte>, read: seq<byte> -> Option<Key>)

  ghost predicate Faithful(json: Json) {
    forall k: Key :: json.write(k) != [] && json.read(json.write(k)) == Some(k)
  }

  function CursorOf(json: Json, k: Key): Option<string> {
    if |json.write(k)| > MAX_CURSOR_JSON_BYTES then None else Some(Encode(json.write(k)))
  }

  function KeyOf(json: Json, cursor: string): Option<Key> {
    if cursor == [] || |cursor| > MAX_CURSOR_LENGTH then None
    else
      match Decode(cursor)
      case Some(raw) => if raw == [] || |raw| > MAX_CURSOR_JSON_BYTES then None else json.read(raw)
      case None => None
  }

  /** Whatever cursor is given out is read back as the key it was made of. */
  lemma CursorRoundTrip(json: Json, k: Key)
    requires Faithful(json)
    ensures CursorOf(json, k).Some? ==> KeyOf(json, CursorOf(json, k).value) == Some(k)
  {
    DecodeOfEncode(json.write(k));
    SextetsLength(json.write(k));
  }

  /** Nothing that is empty or too long is taken for a cursor, nor is one given out that would not be taken. */
  lemma CursorLimits(json: Json, k: Key, cursor: string)
    ensures KeyOf(json, cursor).Some? ==>
              0 < |cursor| <= 2048 && Decode(cursor).Some? && 0 < |Decode(cursor).value| <= 512
    ensures CursorOf(json, k).Some? <==> |json.write(k)| <= 512
    ensures CursorOf(json, k).Some? ==> |CursorOf(json, k).value| <= 683
  {
    SextetsLength(json.write(k));
  }

  // ---- one page ----

  datatype Conversation = Conversation(key: Key, title: nat)
  datatype Result = Page(items: seq<Conversation>, next: Option<string>) | ValidationError | InvalidCursor

  predicate Below(a: Key, b: Key) {
    a.updatedAt < b.updatedAt || (a.updatedAt == b.updatedAt && a.id < b.id)
  }

  /** The order in which conversations are read: newest first, then by id, every key once. */
  predicate Descending(all: seq<Conversation>) {
    forall i, j | 0 <= i < j < |all| :: Below(all[j].key, all[i].key)
  }

  /** The page that starts at `start`: at most `limit` items, and a cursor exactly if more follow. */
  function PageAt(json: Json, all: seq<Conversation>, start: nat, limit: nat): Result
    requires start <= |all| && limit > 0
  {
    if start + limit >= |all| then Page(all[start..], None)
    else
      match CursorOf(json, all[start + limit - 1].key)
      case Some(cursor) => Page(all[start..start + limit], Some(cursor))
      case None => InvalidCursor
  }

  /** Where the conversations below the key begin. */
  function StartOf(all: seq<Conversation>, after: Option<Key>): (start: nat)
    ensures start <= |all|
  {
    if all == [] || after.None? || Below(all[0].key, after.value) then 0 else 1 + StartOf(all[1..], after)
  }

  /** In descending order it is the one place between those that are not below the key and those that are. */
  lemma {:induction false} StartIsBetween(all: seq<Conversation>, after: Option<Key>, start: nat)
    requires Descending(all) && start <= |all| && (after.None? ==> start == 0)
    requires after.Some? ==> forall i | 0 <= i < start :: !Below(all[i].key, after.value)
    requires after.Some? && start < |all| ==> Below(all[start].key, after.value)
    ensures StartOf(all, after) == start
  {
    if start > 0 { StartIsBetween(all[1..], after, start - 1); }
  }

  /** One more than the limit, to see whether a further page follows. */
  method Candidates(all: seq<Conversation>, after: Option<Key>, limit: nat) returns (candidates: seq<Conversation>)
    requires Descending(all) && limit > 0
    ensures var start := StartOf(all, after);
            candidates == all[start..if start + limit < |all| then start + limit + 1 else |all|]
  {
    candidates := [];
    var i := 0;
    ghost var start := 0;
    while i < |all| && |candidates| < limit + 1
      invariant start <= i <= |all| && candidates == all[start..i] && |candidates| <= limit + 1
      invariant after.None? ==> start == 0
      invariant after.Some? ==> (forall j | 0 <= j < start :: !Below(all[j].key, after.value))
                                && (start < i ==> Below(all[start].key, after.value))
    {
      if after.Some? && !Below(all[i].key, after.value) {
        start := i + 1;
      } else {
        candidates := candidates + [all[i]];
      }
      i := i + 1;
    }
    StartIsBetween(all, after, start);
  }

  method List(json: Json, all: seq<Conversation>, limit: int, cursor: Option<string>) returns (r: Result)
    requires Descending(all)
    ensures !(1 <= limit <= 100) ==> r == ValidationError
    ensures 1 <= limit <= 100 && cursor.Some? && KeyOf(json, cursor.value).None? ==> r == InvalidCursor
    ensures 1 <= limit <= 100 && (cursor.Some? ==> KeyOf(json, cursor.value).Some?) ==>
              r == PageAt(json, all, StartOf(all, if cursor.None? then None else KeyOf(json, cursor.value)), limit)
  {
    if !(1 <= limit <= 100) {
      return ValidationError;
    }
    var after: Option<Key> := None;
    if cursor.Some? {
      after := KeyOf(json, cursor.value);
      if after.None? {
        return InvalidCursor;
      }
    }
    var candidates := Candidates(all, after, limit);
    if |candidates| <= limit {
      return Page(candidates, None);
    }
    var items := candidates[..limit];
    var next := CursorOf(json, items[|items| - 1].key);
    r := if next.Some? then Page(items, next) else InvalidCursor;
  }

  // ---- all pages ----

  /** The last item of every page but the last one has a cursor. */
  predicate CursorsFit(json: Json, all: seq<Conversation>, start: nat, limit: nat)
    requires limit > 0
    decreases |all| - start
  {
    start + limit >= |all|
    || (CursorOf(json, all[start + limit - 1].key).Some? && CursorsFit(json, all, start + limit, limit))
  }

  /** The cursor continues after what was seen. */
  predicate Resumes(json: Json, seen: seq<Conversation>, cursor: Option<string>) {
    if seen == [] then cursor == None
    else cursor.Some? && KeyOf(json, cursor.value) == Some(seen[|seen| - 1].key)
  }

  lemma PageStep(json: Json, all: seq<Conversation>, seen: seq<Conversation>, limit: nat, page: Result)
    requires Faithful(json) && seen <= all && limit > 0 && page == PageAt(json, all, |seen|, limit)
    ensures page.Page? ==> seen + page.items <= all
    ensures page.Page? && page.next.None? ==> seen + page.items == all && CursorsFit(json, all, |seen|, limit)
    ensures page.Page? && page.next.Some? ==>
              && |page.items| == limit && Resumes(json, seen + page.items, page.next)
              && (CursorsFit(json, all, |seen|, limit) <==> CursorsFit(json, all, |seen| + limit, limit))
    ensures !page.Page? ==> !CursorsFit(json, all, |seen|, limit)
  {
    if |seen| + limit < |all| { CursorRoundTrip(json, all[|seen| + limit - 1].key); }
  }

  method Continue(json: Json, all: seq<Conversation>, limit: int, ghost seen: seq<Conversation>, cursor: Option<string>)
    returns (page: Result)
    requires Descending(all) && seen <= all && 1 <= limit <= 100 && Resumes(json, seen, cursor)
    ensures page == PageAt(json, all, |seen|, limit)
  {
    page := List(json, all, limit, cursor);
    StartIsSeen(all, seen, if cursor.None? then None else KeyOf(json, cursor.value));
  }

  /** Following `next` from the start ends and yields every conversation once, in order, unless the key of
      a page's last item is too long for a cursor. */
  method ListAll(json: Json, all: seq<Conversation>, limit: int) returns (seen: seq<Conversation>, complete: bool)
    requires Descending(all) && Faithful(json) && 1 <= limit <= 100
    ensures seen <= all && (complete ==> seen == all)
    ensures complete <==> CursorsFit(json, all, 0, limit)
  {
    seen, complete := [], false;
    var cursor: Option<string> := None;
    while true
      invariant seen <= all && !complete && Resumes(json, seen, cursor)
      invariant CursorsFit(json, all, 0, limit) <==> CursorsFit(json, all, |seen|, limit)
      decreases |all| - |seen|
    {
      var page := Continue(json, all, limit, seen, cursor);
      PageStep(json, all, seen, limit, page);
      if !page.Page? {
        return;
      }
      seen := seen + page.items;
      if page.next.None? {
        complete := true;
        return;
      }
      cursor := page.next;
    }
  }

  lemma StartIsSeen(all: seq<Conversation>, seen: seq<Conversation>, after: Option<Key>)
    requires Descending(all) && seen <= all
    requires if seen == [] then after == None else after == Some(seen[|seen| - 1].key)
    ensures StartOf(all, after) == |seen|
  {
    if seen != [] {
      var last := |seen| - 1;
      assert all[last] == seen[last];
      assert forall i | 0 <= i < last :: Below(all[last].key, all[i].key);
      assert |seen| < |all| ==> Below(all[|seen|].key, all[last].key);
    }
    StartIsBetween(all, after, |seen|);
  }
}
