/** The printed state file can be read back: no two lists of records have the same text, so there is
    a reader that gives back every file the relay prints (crates/server/src/lease_store.rs). */
module StateReading {
  import opened Common
  import opened HostAdmission
  import opened Leases
  import opened LeaseRecords
  import opened Hex
  import opened LeaseStores
  import opened StateText
  import opened Migration

  /** Different addresses are printed differently, and without a quotation mark. */
  ghost predicate ReadableAddresses(ipText: IpPrinter) {
    && (forall ip :: '"' !in ipText(ip))
    && (forall a, b :: ipText(a) == ipText(b) ==> a == b)
  }

  // ---- Three ways to split a text ----

  lemma SplitFixed(a: string, b: string, x: string, y: string)
    requires |a| == |b| && a + x == b + y
    ensures a == b && x == y
  {
    assert (a + x)[..|a|] == a && (b + y)[..|b|] == b;
    assert (a + x)[|a|..] == x && (b + y)[|b|..] == y;
  }

  lemma NotShorter(c: char, a: string, b: string, x: string, y: string)
    requires c !in b && a + [c] + x == b + [c] + y
    ensures |a| >= |b|
  {
    assert (a + [c] + x)[|a|] == c;
    assert forall i :: 0 <= i < |b| ==> (b + [c] + y)[i] == b[i];
  }

  lemma SplitAt(c: char, a: string, b: string, x: string, y: string)
    requires c !in a && c !in b && a + [c] + x == b + [c] + y
    ensures a == b && x == y
  {
    NotShorter(c, a, b, x, y);
    NotShorter(c, b, a, y, x);
    SplitFixed(a + [c], b + [c], x, y);
    SplitFixed(a, b, [c], [c]);
  }

  lemma SameTail(p: string, x: string, y: string)
    requires p + x == p + y
    ensures x == y
  {
    SplitFixed(p, p, x, y);
  }

  lemma Regroup(a: string, b: string, c: string, x: string)
    ensures a + b + c + x == a + (b + (c + x))
  {
  }

  lemma RegroupLease(t: string, o: string, d: string, k: string, p: string, l: string, e: string, x: string)
    requires o == ""
    ensures t + o + d + k + p + l + e + x == t + (d + (k + (p + (l + (e + x)))))
  {
    assert t + o == t;
    Regroup(t + d + k + p, l, e, x);
    Regroup(t, d, k, p + (l + (e + x)));
    assert t + d + k + p + (l + (e + x)) == t + d + k + (p + (l + (e + x)));
  }

  // ---- Numbers ----

  lemma {:induction false} DecimalDigits(n: nat)
    ensures forall c | c in Decimal(n) :: '0' <= c <= '9'
    ensures |Decimal(n)| > 0 && Decimal(n)[|Decimal(n)| - 1] == DIGITS[n % 10]
    ensures |Decimal(n)| > 1 <==> n >= 10
  {
    if n >= 10 {
      DecimalDigits(n / 10);
    }
  }

  lemma {:induction false} DecimalInjective(a: nat, b: nat)
    requires Decimal(a) == Decimal(b)
    ensures a == b
  {
    DecimalDigits(a);
    DecimalDigits(b);
    assert DIGITS[a % 10] == DIGITS[b % 10];
    assert a % 10 == b % 10;
    if a >= 10 {
      SplitLast(Decimal(a / 10), Decimal(b / 10), DIGITS[a % 10], DIGITS[b % 10]);
      DecimalInjective(a / 10, b / 10);
    }
  }

  lemma SplitLast(a: string, b: string, c: char, d: char)
    requires a + [c] == b + [d]
    ensures a == b && c == d
  {
    SplitFixed(a, b, [c], [d]);
  }

  /** A number, then a character that is no digit, between two fixed texts. */
  lemma SplitNumber(head: string, tail: string, c: char, a: nat, b: nat, x: string, y: string)
    requires !('0' <= c <= '9')
    requires head + Decimal(a) + ([c] + tail) + x == head + Decimal(b) + ([c] + tail) + y
    ensures a == b && x == y
  {
    SplitDelimited(head, tail, c, Decimal(a), Decimal(b), x, y) by {
      DecimalDigits(a);
      DecimalDigits(b);
    }
    DecimalInjective(a, b);
  }

  lemma SplitDelimited(head: string, tail: string, c: char, s: string, t: string, x: string, y: string)
    requires c !in s && c !in t
    requires head + s + ([c] + tail) + x == head + t + ([c] + tail) + y
    ensures s == t && x == y
  {
    Regroup(head, s, [c] + tail, x);
    Regroup(head, t, [c] + tail, y);
    SameTail(head, s + ([c] + tail + x), t + ([c] + tail + y));
    assert s + ([c] + tail + x) == s + [c] + (tail + x) && t + ([c] + tail + y) == t + [c] + (tail + y);
    SplitAt(c, s, t, tail + x, tail + y);
    SameTail(tail, x, y);
  }

  // ---- The fields of a lease ----

  lemma HexInjective(a: TokenId, b: TokenId)
    requires HexOf(a.bytes) == HexOf(b.bytes)
    ensures a == b
  {
    HexRoundTrip(a.bytes);
    HexRoundTrip(b.bytes);
  }

  lemma QuotedHex(head: string, tail: string, a: TokenId, b: TokenId, x: string, y: string)
    requires head + Quoted(HexOf(a.bytes)) + tail + x == head + Quoted(HexOf(b.bytes)) + tail + y
    ensures a == b && x == y
  {
    HexSize(a);
    HexSize(b);
    SplitFixed(head + Quoted(HexOf(a.bytes)) + tail, head + Quoted(HexOf(b.bytes)) + tail, x, y);
    SplitFixed(head + Quoted(HexOf(a.bytes)), head + Quoted(HexOf(b.bytes)), tail, tail);
    SameTail(head, Quoted(HexOf(a.bytes)), Quoted(HexOf(b.bytes)));
    assert Quoted(HexOf(a.bytes))[1..65] == HexOf(a.bytes) && Quoted(HexOf(b.bytes))[1..65] == HexOf(b.bytes);
    HexInjective(a, b);
  }

  lemma SplitToken(a: LeaseRecord, b: LeaseRecord, x: string, y: string)
    requires TokenText(FromRecord(a)) + x == TokenText(FromRecord(b)) + y
    ensures a.tokenId == b.tokenId && x == y
  {
    QuotedHex("{\n" + FIELD + "\"token_id\": ", ",\n", a.tokenId, b.tokenId, x, y);
  }

  /** The first letter of a field's name is at 7. */
  predicate Letter(s: string, i: nat, c: char) {
    i < |s| && s[i] == c
  }

  lemma RecoveryLetter(r: LeaseRecord, x: string)
    requires Letter(x, 7, 'p')
    ensures Letter(RecoveryText(FromRecord(r)) + x, 7, if r.recoveryId.Some? then 'r' else 'p')
  {
    var head := FIELD + "\"recovery_id\": ";
    assert head[7] == 'r';
  }

  lemma SplitRecovery(a: LeaseRecord, b: LeaseRecord, x: string, y: string)
    requires Letter(x, 7, 'p') && Letter(y, 7, 'p')
    requires RecoveryText(FromRecord(a)) + x == RecoveryText(FromRecord(b)) + y
    ensures a.recoveryId == b.recoveryId && x == y
  {
    RecoveryLetter(a, x);
    RecoveryLetter(b, y);
    if a.recoveryId.Some? {
      QuotedHex(FIELD + "\"recovery_id\": ", ",\n", a.recoveryId.value, b.recoveryId.value, x, y);
    } else {
      SplitFixed(RecoveryText(FromRecord(a)), RecoveryText(FromRecord(b)), x, y);
    }
  }

  lemma SplitPort(a: LeaseRecord, b: LeaseRecord, x: string, y: string)
    requires PortText(FromRecord(a)) + x == PortText(FromRecord(b)) + y
    ensures a.port == b.port && x == y
  {
    assert ",\n" == [','] + "\n";
    SplitNumber(FIELD + "\"port\": ", "\n", ',', a.port, b.port, x, y);
  }

  lemma SplitExpiry(a: LeaseRecord, b: LeaseRecord, x: string, y: string)
    requires ExpiryText(FromRecord(a)) + x == ExpiryText(FromRecord(b)) + y
    ensures a.expiresAt == b.expiresAt && x == y
  {
    assert "\n    }" == ['\n'] + "    }";
    SplitNumber(FIELD + "\"expires_at_ms\": ", "    }", '\n', a.expiresAt, b.expiresAt, x, y);
  }

  function IpValue(ipText: IpPrinter, ip: Option<IpAddr>): string {
    if ip.Some? then Quoted(ipText(ip.value)) else "null"
  }

  lemma IpLetter(ipText: IpPrinter, ip: Option<IpAddr>, x: string)
    ensures Letter(IpValue(ipText, ip) + x, 0, if ip.Some? then '"' else 'n')
  {
  }

  lemma SplitIpValue(ipText: IpPrinter, a: Option<IpAddr>, b: Option<IpAddr>, x: string, y: string)
    requires ReadableAddresses(ipText) && IpValue(ipText, a) + x == IpValue(ipText, b) + y
    ensures a == b && x == y
  {
    IpLetter(ipText, a, x);
    IpLetter(ipText, b, y);
    if a.Some? {
      assert ['"'] + "" == "\"";
      SplitDelimited("\"", "", '"', ipText(a.value), ipText(b.value), x, y);
    } else {
      SameTail("null", x, y);
    }
  }

  lemma SplitLastIp(ipText: IpPrinter, a: LeaseRecord, b: LeaseRecord, x: string, y: string)
    requires ReadableAddresses(ipText)
    requires LastIpText(ipText, FromRecord(a)) + x == LastIpText(ipText, FromRecord(b)) + y
    ensures a.lastIp == b.lastIp && x == y
  {
    var head := FIELD + "\"last_ip\": ";
    var s, t := IpValue(ipText, a.lastIp), IpValue(ipText, b.lastIp);
    Regroup(head, s, ",\n", x);
    Regroup(head, t, ",\n", y);
    SameTail(head, s + (",\n" + x), t + (",\n" + y));
    SplitIpValue(ipText, a.lastIp, b.lastIp, ",\n" + x, ",\n" + y);
    SameTail(",\n", x, y);
  }

  // ---- The retired ids ----

  function IdLines(ids: seq<TokenId>): string {
    Lines(ITEM, QuotedAll(HexAll(ids)))
  }

  lemma IdLinesFirst(ids: seq<TokenId>, x: string)
    requires ids != []
    ensures IdLines(ids) + x ==
              ITEM + Quoted(HexOf(ids[0].bytes)) + "" + (if |ids| == 1 then "\n" + x else ",\n" + (IdLines(ids[1..]) + x))
  {
    assert QuotedAll(HexAll(ids))[1..] == QuotedAll(HexAll(ids[1..]));
    var first := ITEM + Quoted(HexOf(ids[0].bytes));
    assert first + "" == first;
    if |ids| == 1 {
      assert IdLines(ids) == first + "\n";
    } else {
      assert IdLines(ids) == first + ",\n" + IdLines(ids[1..]);
      assert IdLines(ids) + x == first + (",\n" + (IdLines(ids[1..]) + x));
    }
  }

  lemma {:induction false} SplitIds(a: seq<TokenId>, b: seq<TokenId>, x: string, y: string)
    requires a != [] && b != [] && IdLines(a) + x == IdLines(b) + y
    ensures a == b && x == y
    decreases |a|
  {
    var s := if |a| == 1 then "\n" + x else ",\n" + (IdLines(a[1..]) + x);
    var t := if |b| == 1 then "\n" + y else ",\n" + (IdLines(b[1..]) + y);
    IdLinesFirst(a, x);
    IdLinesFirst(b, y);
    QuotedHex(ITEM, "", a[0], b[0], s, t);
    assert s[0] == t[0];
    if |a| == 1 {
      SameTail("\n", x, y);
    } else {
      SameTail(",\n", IdLines(a[1..]) + x, IdLines(b[1..]) + y);
      SplitIds(a[1..], b[1..], x, y);
      assert a == [a[0]] + a[1..] && b == [b[0]] + b[1..];
    }
  }

  lemma RetiredParts(r: LeaseRecord, x: string)
    requires r.retired != []
    ensures RetiredText(FromRecord(r)) + x ==
              FIELD + "\"retired_token_ids\": [\n" + (IdLines(r.retired) + (FIELD + "],\n" + x))
  {
    var head := FIELD + "\"retired_token_ids\": [\n";
    Regroup(head, IdLines(r.retired), FIELD + "],\n", x);
    assert RetiredText(FromRecord(r)) == head + IdLines(r.retired) + (FIELD + "],\n");
  }

  lemma SplitRetired(a: LeaseRecord, b: LeaseRecord, x: string, y: string)
    requires |x| > 9 && x[9] != 't' && |y| > 9 && y[9] != 't'
    requires RetiredText(FromRecord(a)) + x == RetiredText(FromRecord(b)) + y
    ensures a.retired == b.retired && x == y
  {
    var head, end := FIELD + "\"retired_token_ids\": [\n", FIELD + "],\n";
    assert head[9] == 't';
    if a.retired != [] { RetiredParts(a, x); } else { assert RetiredText(FromRecord(a)) + x == x; }
    if b.retired != [] { RetiredParts(b, y); } else { assert RetiredText(FromRecord(b)) + y == y; }
    if a.retired != [] && b.retired != [] {
      SameTail(head, IdLines(a.retired) + (end + x), IdLines(b.retired) + (end + y));
      SplitIds(a.retired, b.retired, end + x, end + y);
      SameTail(end, x, y);
    }
  }

  // ---- A lease ----

  function FromPort(ipText: IpPrinter, r: LeaseRecord, x: string): string {
    var p := FromRecord(r);
    PortText(p) + (LastIpText(ipText, p) + (ExpiryText(p) + x))
  }

  function FromRecovery(ipText: IpPrinter, r: LeaseRecord, x: string): string {
    RecoveryText(FromRecord(r)) + FromPort(ipText, r, x)
  }

  lemma LeaseParts(ipText: IpPrinter, r: LeaseRecord, x: string)
    ensures LeaseText(ipText, FromRecord(r)) + x ==
              TokenText(FromRecord(r)) + (RetiredText(FromRecord(r)) + FromRecovery(ipText, r, x))
  {
    var p := FromRecord(r);
    RegroupLease(TokenText(p), OldRetiredText(p), RetiredText(p), RecoveryText(p), PortText(p), LastIpText(ipText, p),
                 ExpiryText(p), x);
  }

  lemma PortLetters(ipText: IpPrinter, r: LeaseRecord, x: string)
    ensures Letter(FromPort(ipText, r, x), 7, 'p') && Letter(FromPort(ipText, r, x), 9, 'r')
  {
    var head := FIELD + "\"port\": ";
    assert head[7] == 'p' && head[9] == 'r';
  }

  lemma RecoveryLetters(ipText: IpPrinter, r: LeaseRecord, x: string)
    ensures var s := FromRecovery(ipText, r, x); |s| > 9 && s[9] != 't'
  {
    PortLetters(ipText, r, x);
    if r.recoveryId.Some? {
      var head := FIELD + "\"recovery_id\": ";
      assert head[9] == 'c';
    } else {
      assert FromRecovery(ipText, r, x) == FromPort(ipText, r, x);
    }
  }

  lemma SplitFromPort(ipText: IpPrinter, a: LeaseRecord, b: LeaseRecord, x: string, y: string)
    requires ReadableAddresses(ipText) && FromPort(ipText, a, x) == FromPort(ipText, b, y)
    ensures a.port == b.port && a.lastIp == b.lastIp && a.expiresAt == b.expiresAt && x == y
  {
    var p, q := FromRecord(a), FromRecord(b);
    SplitPort(a, b, LastIpText(ipText, p) + (ExpiryText(p) + x), LastIpText(ipText, q) + (ExpiryText(q) + y));
    SplitLastIp(ipText, a, b, ExpiryText(p) + x, ExpiryText(q) + y);
    SplitExpiry(a, b, x, y);
  }

  /** The text of a lease ends where it ends, and says the whole record. */
  lemma SplitLease(ipText: IpPrinter, a: LeaseRecord, b: LeaseRecord, x: string, y: string)
    requires ReadableAddresses(ipText)
    requires LeaseText(ipText, FromRecord(a)) + x == LeaseText(ipText, FromRecord(b)) + y
    ensures a == b && x == y
  {
    LeaseParts(ipText, a, x);
    LeaseParts(ipText, b, y);
    SplitToken(a, b, RetiredText(FromRecord(a)) + FromRecovery(ipText, a, x),
               RetiredText(FromRecord(b)) + FromRecovery(ipText, b, y));
    RecoveryLetters(ipText, a, x);
    RecoveryLetters(ipText, b, y);
    SplitRetired(a, b, FromRecovery(ipText, a, x), FromRecovery(ipText, b, y));
    PortLetters(ipText, a, x);
    PortLetters(ipText, b, y);
    SplitRecovery(a, b, FromPort(ipText, a, x), FromPort(ipText, b, y));
    SplitFromPort(ipText, a, b, x, y);
  }

  // ---- The file ----

  function LeaseLines(ipText: IpPrinter, rs: seq<LeaseRecord>): string {
    Lines("    ", LeaseTexts(ipText, FromRecords(rs)))
  }

  lemma LinesFirst(items: seq<string>)
    requires items != []
    ensures Lines("    ", items) == "    " + (items[0] + (if |items| == 1 then "\n" else ",\n" + Lines("    ", items[1..])))
  {
    var indent := "    ";
    LinesFirstOf(indent, items);
  }

  lemma LinesFirstOf(indent: string, items: seq<string>)
    requires items != []
    ensures Lines(indent, items) == indent + (items[0] + (if |items| == 1 then "\n" else ",\n" + Lines(indent, items[1..])))
  {
    if |items| == 1 {
      assert indent + items[0] + "\n" == indent + (items[0] + "\n");
    } else {
      Regroup(indent, items[0], ",\n", Lines(indent, items[1..]));
    }
  }

  lemma LeaseLinesFirst(ipText: IpPrinter, rs: seq<LeaseRecord>)
    requires rs != []
    ensures LeaseLines(ipText, rs) ==
              "    " + (LeaseText(ipText, FromRecord(rs[0]))
                        + (if |rs| == 1 then "\n" else ",\n" + LeaseLines(ipText, rs[1..])))
  {
    LaterTexts(ipText, rs);
    LinesFirst(LeaseTexts(ipText, FromRecords(rs)));
  }

  lemma LaterTexts(ipText: IpPrinter, rs: seq<LeaseRecord>)
    requires rs != []
    ensures LeaseTexts(ipText, FromRecords(rs))[1..] == LeaseTexts(ipText, FromRecords(rs[1..]))
    ensures LeaseTexts(ipText, FromRecords(rs))[0] == LeaseText(ipText, FromRecord(rs[0]))
  {
  }

  function Separated(more: bool, rest: string): string {
    if more then ",\n" + rest else "\n"
  }

  lemma SplitSeparators(more: bool, otherMore: bool, rest: string, otherRest: string)
    requires Separated(more, rest) == Separated(otherMore, otherRest)
    ensures more == otherMore && (more ==> rest == otherRest)
  {
    assert Letter(Separated(more, rest), 0, if more then ',' else '\n');
    assert Letter(Separated(otherMore, otherRest), 0, if otherMore then ',' else '\n');
    if more {
      SameTail(",\n", rest, otherRest);
    }
  }

  lemma {:induction false} LeaseLinesInjective(ipText: IpPrinter, a: seq<LeaseRecord>, b: seq<LeaseRecord>)
    requires ReadableAddresses(ipText) && a != [] && b != [] && LeaseLines(ipText, a) == LeaseLines(ipText, b)
    ensures a == b
    decreases |a|
  {
    var rest, otherRest := LeaseLines(ipText, a[1..]), LeaseLines(ipText, b[1..]);
    LeaseLinesFirst(ipText, a);
    LeaseLinesFirst(ipText, b);
    LeaseSeparated(ipText, a[0], b[0], |a| > 1, |b| > 1, rest, otherRest);
    if |a| > 1 {
      LeaseLinesInjective(ipText, a[1..], b[1..]);
    }
    SameRecords(a, b);
  }

  lemma SameRecords(a: seq<LeaseRecord>, b: seq<LeaseRecord>)
    requires a != [] && b != [] && a[0] == b[0] && a[1..] == b[1..]
    ensures a == b
  {
    assert a == [a[0]] + a[1..] && b == [b[0]] + b[1..];
  }

  lemma LeaseSeparated(ipText: IpPrinter, a: LeaseRecord, b: LeaseRecord, more: bool, otherMore: bool, rest: string,
                       otherRest: string)
    requires ReadableAddresses(ipText)
    requires "    " + (LeaseText(ipText, FromRecord(a)) + Separated(more, rest)) ==
             "    " + (LeaseText(ipText, FromRecord(b)) + Separated(otherMore, otherRest))
    ensures a == b && more == otherMore && (more ==> rest == otherRest)
  {
    var s, t := Separated(more, rest), Separated(otherMore, otherRest);
    SameTail("    ", LeaseText(ipText, FromRecord(a)) + s, LeaseText(ipText, FromRecord(b)) + t);
    SplitLease(ipText, a, b, s, t);
    SplitSeparators(more, otherMore, rest, otherRest);
  }

  function Printed(ipText: IpPrinter, rs: seq<LeaseRecord>): string {
    FileText(ipText, PersistedV2(2, FromRecords(rs)))
  }

  const FILE_HEAD := "{\n  \"version\": " + Decimal(2) + ",\n  \"leases\": "

  function LeasesValue(ipText: IpPrinter, rs: seq<LeaseRecord>): string {
    if rs == [] then "[]" else "[\n" + LeaseLines(ipText, rs) + "  ]"
  }

  lemma PrintedParts(ipText: IpPrinter, rs: seq<LeaseRecord>)
    ensures Printed(ipText, rs) == FILE_HEAD + LeasesValue(ipText, rs) + "\n}"
  {
    assert rs == [] <==> FromRecords(rs) == [];
  }

  lemma SplitEnds(head: string, tail: string, a: string, b: string)
    requires head + a + tail == head + b + tail
    ensures a == b
  {
    SplitFixed(head + a, head + b, tail, tail);
    SameTail(head, a, b);
  }

  lemma SecondLetter(ipText: IpPrinter, rs: seq<LeaseRecord>)
    ensures Letter(LeasesValue(ipText, rs), 1, if rs == [] then ']' else '\n')
  {
  }

  /** Two lists of records with the same printed file are one list. */
  lemma PrintedInjective(ipText: IpPrinter, a: seq<LeaseRecord>, b: seq<LeaseRecord>)
    requires ReadableAddresses(ipText) && Printed(ipText, a) == Printed(ipText, b)
    ensures a == b
  {
    PrintedParts(ipText, a);
    PrintedParts(ipText, b);
    SplitEnds(FILE_HEAD, "\n}", LeasesValue(ipText, a), LeasesValue(ipText, b));
    SecondLetter(ipText, a);
    SecondLetter(ipText, b);
    if a != [] {
      SplitEnds("[\n", "  ]", LeaseLines(ipText, a), LeaseLines(ipText, b));
      LeaseLinesInjective(ipText, a, b);
    }
  }

  // ---- A reader exists ----

  ghost function Read(ipText: IpPrinter, text: string): FileValue {
    if exists rs :: Printed(ipText, rs) == text then
      var rs :| Printed(ipText, rs) == text;
      VersionTwo(PersistedV2(2, FromRecords(rs)))
    else Malformed
  }

  lemma ReadPrinted(ipText: IpPrinter, rs: seq<LeaseRecord>)
    requires ReadableAddresses(ipText)
    ensures Read(ipText, Printed(ipText, rs)) == VersionTwo(PersistedV2(2, FromRecords(rs)))
  {
    forall other | Printed(ipText, other) == Printed(ipText, rs) ensures other == rs {
      PrintedInjective(ipText, other, rs);
    }
  }

  /** So there is a reader with which migration is sound: it gives back every printed file. */
  lemma SoundReaderExists(ipText: IpPrinter, fingerprint: Token -> TokenId)
    requires ReadableAddresses(ipText) && PrintsAddresses(ipText)
    requires forall a: Token, b: Token :: fingerprint(a) == fingerprint(b) ==> a == b
    ensures exists parse: string -> FileValue :: Sound(Setting(ipText, parse, fingerprint))
  {
    var parse: string -> FileValue := text => Read(ipText, text);
    forall rs
      ensures parse(Printed(ipText, rs)) == VersionTwo(PersistedV2(2, FromRecords(rs)))
    {
      ReadPrinted(ipText, rs);
    }
    assert Sound(Setting(ipText, parse, fingerprint));
  }
}
