/** The text of the state file in the two-space layout of `serde_json::to_vec_pretty`, and its
    size (crates/server/src/lease_store.rs). */
module StateText {
  import opened Common
  import opened HostAdmission
  import opened Leases
  import opened LeaseInvariants
  import opened LeaseRecords
  import opened Hex
  import opened LeaseStores

  const MAX_STATE_BYTES: nat := 1024 * 1024

  /** How an address is printed; no address text is longer than 39 characters. */
  type IpPrinter = IpAddr -> string

  ghost predicate PrintsAddresses(ipText: IpPrinter) {
    forall ip :: |ipText(ip)| <= 39
  }

  function Decimal(n: nat): string {
    if n < 10 then [DIGITS[n]] else Decimal(n / 10) + [DIGITS[n % 10]]
  }

  function Quoted(s: string): string {
    "\"" + s + "\""
  }

  /** The items of an array, each on its own line after `indent`. */
  function Lines(indent: string, items: seq<string>): string {
    if items == [] then ""
    else if |items| == 1 then indent + items[0] + "\n"
    else indent + items[0] + ",\n" + Lines(indent, items[1..])
  }

  const FIELD := "      "
  const ITEM := "        "

  function TokenText(p: PersistedLease): string {
    "{\n" + FIELD + "\"token_id\": " + Quoted(p.tokenId) + ",\n"
  }

  function OldRetiredText(p: PersistedLease): string {
    if p.retiredTokenId.None? then ""
    else FIELD + "\"retired_token_id\": " + Quoted(p.retiredTokenId.value) + ",\n"
  }

  function QuotedAll(ids: seq<string>): (r: seq<string>)
    ensures |r| == |ids|
  {
    seq(|ids|, i requires 0 <= i < |ids| => Quoted(ids[i]))
  }

  function RetiredText(p: PersistedLease): string {
    if p.retiredTokenIds == [] then ""
    else FIELD + "\"retired_token_ids\": [\n" + Lines(ITEM, QuotedAll(p.retiredTokenIds)) + FIELD + "],\n"
  }

  function RecoveryText(p: PersistedLease): string {
    if p.recoveryId.None? then ""
    else FIELD + "\"recovery_id\": " + Quoted(p.recoveryId.value) + ",\n"
  }

  function PortText(p: PersistedLease): string {
    FIELD + "\"port\": " + Decimal(p.port) + ",\n"
  }

  function LastIpText(ipText: IpPrinter, p: PersistedLease): string {
    FIELD + "\"last_ip\": " + (if p.lastIp.Some? then Quoted(ipText(p.lastIp.value)) else "null") + ",\n"
  }

  function ExpiryText(p: PersistedLease): string {
    FIELD + "\"expires_at_ms\": " + Decimal(p.expiresAt) + "\n    }"
  }

  function LeaseText(ipText: IpPrinter, p: PersistedLease): string {
    TokenText(p) + OldRetiredText(p) + RetiredText(p) + RecoveryText(p) + PortText(p) + LastIpText(ipText, p) + ExpiryText(p)
  }

  function LeaseTexts(ipText: IpPrinter, ps: seq<PersistedLease>): (r: seq<string>)
    ensures |r| == |ps|
  {
    seq(|ps|, i requires 0 <= i < |ps| => LeaseText(ipText, ps[i]))
  }

  function FileText(ipText: IpPrinter, file: PersistedV2): string {
    "{\n  \"version\": " + Decimal(file.version) + ",\n  \"leases\": "
    + (if file.leases == [] then "[]"
       else "[\n" + Lines("    ", LeaseTexts(ipText, file.leases)) + "  ]")
    + "\n}"
  }

  /** The file of a relay without claims, in full. */
  lemma EmptyLayout(ipText: IpPrinter)
    ensures FileText(ipText, PersistedV2(2, [])) == "{\n  \"version\": 2,\n  \"leases\": []\n}"
  {
    assert Decimal(2) == "2";
  }

  // ---- Sizes ----

  function PowerOfTen(k: nat): nat {
    if k == 0 then 1 else 10 * PowerOfTen(k - 1)
  }

  lemma {:induction false} DecimalSize(n: nat, k: nat)
    requires 0 < k && n < PowerOfTen(k)
    ensures |Decimal(n)| <= k
  {
    if n >= 10 {
      assert k > 1;
      DecimalSize(n / 10, k - 1);
    }
  }

  lemma {:induction false} LinesSize(indent: string, items: seq<string>, bound: nat)
    requires forall i :: 0 <= i < |items| ==> |items[i]| <= bound
    ensures |Lines(indent, items)| <= |items| * (|indent| + bound + 2)
  {
    if |items| > 1 {
      LinesSize(indent, items[1..], bound);
    }
  }

  lemma NumberSizes(port: u16, expiresAt: u64)
    ensures |Decimal(port)| <= 5 && |Decimal(expiresAt)| <= 20
  {
    assert PowerOfTen(5) == 100_000;
    DecimalSize(port, 5);
    assert PowerOfTen(10) == 100_000 * PowerOfTen(5);
    assert PowerOfTen(15) == 100_000 * PowerOfTen(10);
    assert PowerOfTen(20) == 100_000 * PowerOfTen(15);
    DecimalSize(expiresAt, 20);
  }

  lemma HexSize(id: TokenId)
    ensures |Quoted(HexOf(id.bytes))| == 66
  {
    HexAt(id.bytes, 0);
  }

  lemma RetiredSize(r: LeaseRecord)
    requires |r.retired| <= MAX_RETIRED_IDENTITIES
    ensures |RetiredText(FromRecord(r))| <= 646
  {
    var p := FromRecord(r);
    var items := QuotedAll(p.retiredTokenIds);
    forall i | 0 <= i < |items| ensures |items[i]| <= 66 { HexSize(r.retired[i]); }
    LinesSize(ITEM, items, 66);
    assert |Lines(ITEM, items)| <= 8 * 76;
  }

  lemma RecoverySize(r: LeaseRecord)
    ensures |RecoveryText(FromRecord(r))| <= 89
  {
    if r.recoveryId.Some? { HexSize(r.recoveryId.value); }
  }

  /** One claim takes at most 953 characters, whatever its keys, address and expiry. */
  lemma LeaseSize(ipText: IpPrinter, r: LeaseRecord)
    requires PrintsAddresses(ipText) && |r.retired| <= MAX_RETIRED_IDENTITIES
    ensures |LeaseText(ipText, FromRecord(r))| <= 953
  {
    HexSize(r.tokenId);
    RetiredSize(r);
    RecoverySize(r);
    NumberSizes(r.port, r.expiresAt);
    if r.lastIp.Some? { assert |ipText(r.lastIp.value)| <= 39; }
  }

  lemma LeaseLinesSize(ipText: IpPrinter, rs: seq<LeaseRecord>)
    requires PrintsAddresses(ipText) && forall i :: 0 <= i < |rs| ==> |rs[i].retired| <= MAX_RETIRED_IDENTITIES
    ensures |Lines("    ", LeaseTexts(ipText, FromRecords(rs)))| <= 959 * |rs|
  {
    var items := LeaseTexts(ipText, FromRecords(rs));
    forall i | 0 <= i < |items| ensures |items[i]| <= 953 {
      LeaseSize(ipText, rs[i]);
    }
    ItemLinesSize(items);
  }

  lemma ItemLinesSize(items: seq<string>)
    requires forall i :: 0 <= i < |items| ==> |items[i]| <= 953
    ensures |Lines("    ", items)| <= 959 * |items|
  {
    var indent := "    ";
    assert |indent| == 4;
    LinesSize(indent, items, 953);
  }

  lemma ImageSize(ipText: IpPrinter, rs: seq<LeaseRecord>)
    requires PrintsAddresses(ipText) && |rs| <= 1000
    requires forall i :: 0 <= i < |rs| ==> |rs[i].retired| <= MAX_RETIRED_IDENTITIES
    ensures |FileText(ipText, PersistedV2(2, FromRecords(rs)))| <= MAX_STATE_BYTES
  {
    LeaseLinesSize(ipText, rs);
    assert |Decimal(2)| == 1;
  }

  /** The relay never refuses its own state: the file of every valid table, at any time, fits in
      1 MiB, both when it is written and when it is read again. */
  lemma OwnStateFits(ipText: IpPrinter, t: Table, savedAt: u64)
    requires PrintsAddresses(ipText) && ValidTable(t)
    ensures |FileText(ipText, ImageOf(t.leases, savedAt))| <= MAX_STATE_BYTES
  {
    var rs := RecordsFrom(t.leases, savedAt, PORT_START);
    RecordsFromSnapshot(t.leases, savedAt);
    TokensOfSize(rs);
    PoolCount(t.leases);
    forall i | 0 <= i < |rs| ensures |rs[i].retired| <= MAX_RETIRED_IDENTITIES {
      assert rs[i].retired == t.leases[rs[i].tokenId].retired;
    }
    ImageSize(ipText, rs);
  }
}
