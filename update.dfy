/** The update side: turning identifiers and update messages into the URIs whose cached
  * descriptions are rebuilt. */
module Update {
  import opened Strings

  /** The hexadecimal digits of `s`, lower-cased, in order; everything else is skipped. */
  function HexDigits(s: string): (r: string)
    ensures |r| <= |s|
    ensures forall i :: 0 <= i < |r| ==> IsXDigit(r[i]) && !IsUpper(r[i])
    decreases |s|
  {
    if s == [] then []
    else HexDigits(s[..|s| - 1]) + (if IsXDigit(s[|s| - 1]) then [ToLower(s[|s| - 1])] else [])
  }

  lemma {:induction false} HexDigitsAppend(a: string, b: string)
    ensures HexDigits(a + b) == HexDigits(a) + HexDigits(b)
    decreases |b|
  {
    if b != [] {
      var b' := b[..|b| - 1];
      assert (a + b)[..|a + b| - 1] == a + b';
      assert (a + b)[|a + b| - 1] == b[|b| - 1];
      HexDigitsAppend(a, b');
    } else {
      assert a + b == a;
    }
  }

  /** One more character adds its lower case when it is a hexadecimal digit, nothing otherwise. */
  lemma {:induction false} HexDigitsStep(s: string, i: nat)
    requires i < |s|
    ensures HexDigits(s[..i + 1]) == HexDigits(s[..i]) + (if IsXDigit(s[i]) then [ToLower(s[i])] else [])
  {
    assert s[..i + 1][..i] == s[..i];
  }

  /** A string with no hexadecimal digit contributes none. */
  lemma {:induction false} NoHexDigits(s: string)
    requires HexDigits(s) == []
    ensures forall i :: 0 <= i < |s| ==> !IsXDigit(s[i])
  {
    forall i | 0 <= i < |s|
      ensures !IsXDigit(s[i])
    {
      assert s == s[..i] + [s[i]] + s[i + 1..];
      HexDigitsAppend(s[..i] + [s[i]], s[i + 1..]);
      HexDigitsAppend(s[..i], [s[i]]);
      assert [s[i]][..0] == [];
    }
  }

  /** What `spindle_parse_identifier_` accepts as a UUID: hexadecimal digits and hyphens only,
    * exactly 32 digits, and nothing after the last digit. */
  predicate UuidShape(s: string)
  {
    && |s| > 0 && IsXDigit(s[|s| - 1])
    && (forall i :: 0 <= i < |s| ==> IsXDigit(s[i]) || s[i] == '-')
    && |HexDigits(s)| == 32
  }

  /** The local URI of an item: the root with one trailing '/', the 32 digits and `#id`. */
  function ItemUri(root: string, uuid: string): string
  {
    EnsureSlash(root) + uuid + "#id"
  }

  /** `spindle_parse_identifier_`: a UUID becomes the item's local URI; anything else is kept as it is. */
  method ParseIdentifier(root: string, identifier: string) returns (r: string)
    ensures r == if UuidShape(identifier) then ItemUri(root, HexDigits(identifier)) else identifier
  {
    var uuid := "";
    var i := 0;
    while i < |identifier| && |uuid| < 32
      invariant 0 <= i <= |identifier|
      invariant uuid == HexDigits(identifier[..i])
      invariant forall j :: 0 <= j < i ==> IsXDigit(identifier[j]) || identifier[j] == '-'
      invariant |uuid| <= 32
      invariant |uuid| == 32 ==> i > 0 && IsXDigit(identifier[i - 1])
    {
      var ch := identifier[i];
      HexDigitsStep(identifier, i);
      if IsXDigit(ch) {
        uuid := uuid + [ToLower(ch)];
      } else if ch == '-' {
      } else {
        NotUuid(identifier, i);
        return identifier;
      }
      i := i + 1;
    }
    if i == |identifier| && |uuid| == 32 {
      assert identifier[..i] == identifier;
      return ItemUri(root, uuid);
    }
    if i == |identifier| {
      assert identifier[..i] == identifier;
    } else {
      TrailingNotUuid(identifier, i);
    }
    r := identifier;
  }

  /** A character that is neither a digit nor a hyphen rules the UUID out. */
  lemma {:induction false} NotUuid(s: string, i: nat)
    requires i < |s| && !IsXDigit(s[i]) && s[i] != '-'
    ensures !UuidShape(s)
  {
  }

  /** Anything after the 32nd digit rules the UUID out. */
  lemma {:induction false} TrailingNotUuid(s: string, i: nat)
    requires 0 < i < |s| && |HexDigits(s[..i])| == 32
    ensures !UuidShape(s)
  {
    assert s == s[..i] + s[i..];
    HexDigitsAppend(s[..i], s[i..]);
    if HexDigits(s[i..]) == [] {
      NoHexDigits(s[i..]);
      assert s[i..][|s| - i - 1] == s[|s| - 1];
    }
  }

  /** Thirty-two lower-case hex digits without hyphens have the UUID shape and parse to themselves. */
  lemma {:induction false} ParseOfUuid(root: string, uuid: string)
    requires |uuid| == 32 && forall i :: 0 <= i < 32 ==> IsXDigit(uuid[i]) && !IsUpper(uuid[i])
    ensures UuidShape(uuid) && HexDigits(uuid) == uuid
  {
    HexDigitsOfLowerHex(uuid);
  }

  lemma {:induction false} HexDigitsOfLowerHex(s: string)
    requires forall i :: 0 <= i < |s| ==> IsXDigit(s[i]) && !IsUpper(s[i])
    ensures HexDigits(s) == s
    decreases |s|
  {
    if s != [] {
      HexDigitsOfLowerHex(s[..|s| - 1]);
    }
  }

  /** The update-mode flags a message may carry. */
  datatype UpdateMode = NoMode | Moved | Updated | Refreshed

  /** The flag word after the identifier; an unrecognised word means no mode. */
  function ModeOf(flag: Option<string>): (m: UpdateMode)
    ensures m == Moved <==> flag == Some("moved")
    ensures m == Updated <==> flag == Some("updated")
    ensures m == Refreshed <==> flag == Some("refreshed")
  {
    match flag
    case Some("moved") => Moved
    case Some("updated") => Updated
    case Some("refreshed") => Refreshed
    case _ => NoMode
  }

  /** The hard limit on message length. */
  const MessageLimit := 1024

  /** A message as `spindle_process_uri` reads it: at most 1024 characters (one per byte of the
    * source's buffer), up to the first NUL and then
    * the first newline; the identifier is what precedes the first space, the flag what follows it. */
  function ParseMessage(buf: string): (r: (string, Option<string>))
    ensures |r.0| <= MessageLimit
    ensures ' ' !in r.0 && '\n' !in r.0 && '\0' !in r.0
  {
    var str := Before(Before(if |buf| > MessageLimit then buf[..MessageLimit] else buf, '\0'), '\n');
    (Before(str, ' '), After(str, ' '))
  }

  /** A message built from an identifier and a flag word reads back as that identifier and flag. */
  lemma {:induction false} ParseMessageRoundTrip(id: string, flag: string)
    requires ' ' !in id && '\n' !in id && '\0' !in id && '\n' !in flag && '\0' !in flag
    requires |id| + 1 + |flag| <= MessageLimit
    ensures ParseMessage(id + " " + flag) == (id, Some(flag))
  {
    var m := id + " " + flag;
    assert m[..|id|] == id && m[|id|] == ' ' && m[|id| + 1..] == flag;
    assert '\0' !in m && '\n' !in m;
    BeforeAbsent(m, '\0');
    BeforeAbsent(m, '\n');
    BeforeAt(m, ' ', |id|);
  }

  /** A message with no space carries no flag. */
  lemma {:induction false} ParseMessageBare(id: string)
    requires ' ' !in id && '\n' !in id && '\0' !in id && |id| <= MessageLimit
    ensures ParseMessage(id) == (id, None)
  {
    BeforeAbsent(id, '\0');
    BeforeAbsent(id, '\n');
    BeforeAbsent(id, ' ');
  }

  lemma {:induction false} BeforeAbsent(s: string, c: char)
    requires c !in s
    ensures Before(s, c) == s
  {
    assert |Before(s, c)| == |s|;
  }

  lemma {:induction false} BeforeAt(s: string, c: char, k: nat)
    requires k < |s| && s[k] == c && c !in s[..k]
    ensures Before(s, c) == s[..k]
    ensures After(s, c) == Some(s[k + 1..])
  {
    var b := Before(s, c);
    assert forall j :: 0 <= j < k ==> s[j] != c;
    assert forall j :: 0 <= j < |b| ==> b[j] != c;
    var a := After(s, c);
    assert s == b + [c] + a.value;
    assert s[k + 1..] == a.value;
  }

  /** What a cache update reports: its status and, when a reference set was passed, the set as
    * the update left it. */
  datatype Refresh = Refresh(status: int, refs: seq<string>)

  /** `spindle_process_uri`: parses the message, rebuilds the item's cache entry and, for a moved
    * item whose update touched other items, updates those in turn. */
  method ProcessUri(buf: string, root: string, update: (string, bool) -> Refresh, updateSet: seq<string> -> int)
    returns (r: int)
    ensures var (id, flag) := ParseMessage(buf);
      var uri := if UuidShape(id) then ItemUri(root, HexDigits(id)) else id;
      var out := update(uri, ModeOf(flag) == Moved);
      r == if out.status == 0 && ModeOf(flag) == Moved && |out.refs| > 1 then updateSet(out.refs) else out.status
  {
    var str := if |buf| > MessageLimit then buf[..MessageLimit] else buf;
    str := Before(str, '\0');
    str := Before(str, '\n');
    var flag := After(str, ' ');
    var mode := ModeOf(flag);
    str := Before(str, ' ');
    assert ParseMessage(buf) == (str, flag);
    var idbuf := ParseIdentifier(root, str);
    var tracking := mode == Moved;
    var out := update(idbuf, tracking);
    r := out.status;
    if r == 0 && tracking && |out.refs| > 1 {
      r := updateSet(out.refs);
    }
  }

  /** The first (at most) 32 hexadecimal digits of a database identifier, lower-cased. */
  function Hex32(t: string): (r: string)
    ensures |r| <= 32
  {
    var h := HexDigits(t);
    if |h| > 32 then h[..32] else h
  }

  /** The URI `spindle_update_all_` rebuilds for a database identifier. */
  method RowUri(base: string, t: string) returns (uri: string)
    ensures uri == base + Hex32(t) + "#id"
  {
    var digits := "";
    var i := 0;
    while i < |t| && |digits| < 32
      invariant 0 <= i <= |t|
      invariant digits == HexDigits(t[..i])
      invariant |digits| <= 32
    {
      HexDigitsStep(t, i);
      if IsXDigit(t[i]) {
        digits := digits + [ToLower(t[i])];
      }
      i := i + 1;
    }
    Hex32Of(t, i);
    uri := base + digits + "#id";
  }

  /** Scanning stops once 32 digits are found: what follows does not change the first 32. */
  lemma {:induction false} Hex32Of(t: string, i: nat)
    requires i <= |t| && |HexDigits(t[..i])| <= 32 && (i == |t| || |HexDigits(t[..i])| == 32)
    ensures Hex32(t) == HexDigits(t[..i])
  {
    assert t == t[..i] + t[i..];
    HexDigitsAppend(t[..i], t[i..]);
    assert (HexDigits(t[..i]) + HexDigits(t[i..]))[..|HexDigits(t[..i])|] == HexDigits(t[..i]);
    if i == |t| {
      assert t[i..] == [];
    }
  }

  /** The result of rebuilding every row from the first: -1 for a missing or over-long identifier,
    * otherwise the first failing update's status, and 0 when all succeed. */
  function UpdateRows(base: string, rows: seq<Option<string>>, update: string -> int): int
    decreases |rows|
  {
    if rows == [] then 0
    else if rows[0].None? || |rows[0].value| > 36 then -1
    else
      var r := update(base + Hex32(rows[0].value) + "#id");
      if r != 0 then r else UpdateRows(base, rows[1..], update)
  }

  /** `spindle_update_all_`: every identifier of the database (`None` when the query fails) is
    * turned into a URI and rebuilt, stopping at the first failure. */
  method UpdateAll(root: string, rows: Option<seq<Option<string>>>, update: string -> int) returns (r: int)
    ensures rows.None? ==> r == -1
    ensures rows.Some? ==> r == UpdateRows(EnsureSlash(root), rows.value, update)
  {
    var base := EnsureSlash(root);
    if rows.None? {
      return -1;
    }
    var rs := rows.value;
    r := 0;
    var i := 0;
    while i < |rs|
      invariant 0 <= i <= |rs|
      invariant UpdateRows(base, rs, update) == UpdateRows(base, rs[i..], update)
    {
      assert rs[i..][1..] == rs[i + 1..];
      var t := rs[i];
      if t.None? || |t.value| > 36 {
        return -1;
      }
      var uri := RowUri(base, t.value);
      r := update(uri);
      if r != 0 {
        return r;
      }
      i := i + 1;
    }
    r := 0;
  }

  /** Every URI `spindle_update_all_` builds fits its buffer: the root, one '/', 32 digits and `#id`. */
  lemma {:induction false} RowUriFits(root: string, t: string)
    ensures |EnsureSlash(root) + Hex32(t) + "#id"| <= |root| + 1 + 32 + 3
  {
  }

  /** `spindle_update`: `all` (in any case) rebuilds everything, which needs the database;
    * anything else is one identifier. */
  method UpdateOne(root: string, identifier: string, db: bool, rows: Option<seq<Option<string>>>,
                   updateAllRow: string -> int, update: (string, bool) -> Refresh)
    returns (r: int)
    ensures EqualsIgnoreCase(identifier, "all") && !db ==> r == -1
    ensures EqualsIgnoreCase(identifier, "all") && db ==>
              r == (if rows.None? then -1 else UpdateRows(EnsureSlash(root), rows.value, updateAllRow))
    ensures !EqualsIgnoreCase(identifier, "all") ==>
              r == update(if UuidShape(identifier) then ItemUri(root, HexDigits(identifier)) else identifier, false).status
  {
    if EqualsIgnoreCase(identifier, "all") {
      if db {
        r := UpdateAll(root, rows, updateAllRow);
        return r;
      }
      return -1;
    }
    var idbuf := ParseIdentifier(root, identifier);
    r := update(idbuf, false).status;
  }
}
