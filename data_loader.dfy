/** The wallet ledger loader: parses the two holder ledgers (fartcoin and
    goat token), chooses a data source for each, lower-cases the addresses
    and joins the two ledgers into the list of shared holders.

    The fetch of `/fartcoin.csv` and `/goattoken.csv` is not modelled: its
    outcome is a parameter, `None` for the `null` the fetch helper returns on
    a failed request. JavaScript's `parseFloat` grammar is not modelled
    either: it is the parameter `parseFloat`, and the model holds for every
    such function. */
module DataLoader {
  import opened JsNumber
  import opened Text

  /** One ledger row, `{ address, amount }` */
  datatype HolderEntry = HolderEntry(address: string, amount: Num)

  /** One shared holder, `{ address, fartAmount, goatAmount }` */
  datatype SharedEntry = SharedEntry(address: string, fartAmount: Num, goatAmount: Num)

  /** The three lists the loader hands to the scene */
  datatype WalletData = WalletData(
    fartcoinHolders: seq<HolderEntry>,
    goatTokenHolders: seq<HolderEntry>,
    sharedHolders: seq<SharedEntry>)

  /** What `parseCSV` guarantees of every entry it returns */
  predicate WellFormedEntry(e: HolderEntry)
  {
    e.address != "" && Trim(e.address) == e.address && ',' !in e.address && !e.amount.NaN?
  }

  /** The entry one data line yields, or None when the line is skipped:
      blank, fewer than two comma fields, an empty address or a NaN amount.
      Columns after the second are ignored. */
  function ParseLine(line: string, parseFloat: string -> Num): Option<HolderEntry>
  {
    var trimmed := Trim(line);
    if trimmed == "" then None
    else
      var parts := Split(trimmed, ',');
      if |parts| < 2 then None
      else
        var address := Trim(parts[0]);
        var amount := parseFloat(Trim(parts[1]));
        if address == "" || amount.NaN? then None
        else Some(HolderEntry(address, amount))
  }

  /** Every accepted line yields a well-formed entry. */
  lemma ParseLineWellFormed(line: string, parseFloat: string -> Num)
    requires ParseLine(line, parseFloat).Some?
    ensures WellFormedEntry(ParseLine(line, parseFloat).value)
  {
    var parts := Split(Trim(line), ',');
    var address := Trim(parts[0]);
    TrimIdempotent(parts[0]);
    if ',' in address {
      TrimInfix(parts[0], ',');
      assert false;
    }
  }

  /** The row parser `parseCSV` applies to every line after the header */
  function RowParser(parseFloat: string -> Num): string -> Option<HolderEntry>
  {
    line => ParseLine(line, parseFloat)
  }

  /** The entries of the data lines `rows`, one per line that `parseRow`
      accepts, in line order */
  function ParseRows(rows: seq<string>, parseRow: string -> Option<HolderEntry>): (entries: seq<HolderEntry>)
    ensures |entries| <= |rows|
  {
    if rows == [] then []
    else
      var earlier := ParseRows(rows[..|rows| - 1], parseRow);
      match parseRow(rows[|rows| - 1])
      case None => earlier
      case Some(e) => earlier + [e]
  }

  /** The row parser accepts only well-formed entries. */
  lemma RowParserWellFormed(parseFloat: string -> Num)
    ensures forall line :: RowParser(parseFloat)(line).Some? ==> WellFormedEntry(RowParser(parseFloat)(line).value)
  {
    forall line | RowParser(parseFloat)(line).Some?
      ensures WellFormedEntry(RowParser(parseFloat)(line).value)
    {
      ParseLineWellFormed(line, parseFloat);
    }
  }

  /** Whatever holds of every entry the row parser accepts holds of every
      entry of the parse. */
  lemma {:induction false} ParseRowsAll(rows: seq<string>, parseRow: string -> Option<HolderEntry>, p: HolderEntry -> bool)
    requires forall line :: parseRow(line).Some? ==> p(parseRow(line).value)
    ensures forall k :: 0 <= k < |ParseRows(rows, parseRow)| ==> p(ParseRows(rows, parseRow)[k])
  {
    if rows != [] {
      ParseRowsAll(rows[..|rows| - 1], parseRow, p);
    }
  }

  /** Every entry of the parse is well formed. */
  lemma ParseRowsWellFormed(rows: seq<string>, parseFloat: string -> Num)
    ensures forall k :: 0 <= k < |ParseRows(rows, RowParser(parseFloat))| ==>
      WellFormedEntry(ParseRows(rows, RowParser(parseFloat))[k])
  {
    RowParserWellFormed(parseFloat);
    ParseRowsAll(rows, RowParser(parseFloat), e => WellFormedEntry(e));
  }

  /** Rows are parsed independently and in order: a malformed row is dropped
      without affecting the rows around it. */
  lemma {:induction false} ParseRowsConcat(a: seq<string>, b: seq<string>, parseRow: string -> Option<HolderEntry>)
    ensures ParseRows(a + b, parseRow) == ParseRows(a, parseRow) + ParseRows(b, parseRow)
  {
    if b == [] {
      assert a + b == a;
    } else {
      var b' := b[..|b| - 1];
      assert (a + b)[..|a + b| - 1] == a + b';
      assert (a + b)[|a + b| - 1] == b[|b| - 1];
      ParseRowsConcat(a, b', parseRow);
    }
  }

  /** A skipped row contributes nothing; an accepted row contributes exactly its entry. */
  lemma ParseRowsAroundRow(a: seq<string>, row: string, b: seq<string>, parseRow: string -> Option<HolderEntry>)
    ensures parseRow(row).None? ==>
      ParseRows(a + [row] + b, parseRow) == ParseRows(a, parseRow) + ParseRows(b, parseRow)
    ensures parseRow(row).Some? ==>
      ParseRows(a + [row] + b, parseRow) == ParseRows(a, parseRow) + [parseRow(row).value] + ParseRows(b, parseRow)
  {
    ParseRowsConcat(a + [row], b, parseRow);
    ParseRowsConcat(a, [row], parseRow);
    assert [row][..0] == [];
  }

  /** The lines `parseCSV` works on: the trimmed text split at line feeds */
  function CsvLines(text: string): seq<string>
  {
    Split(Trim(text), '\n')
  }

  /** What `parseCSV` returns. `None` stands for a value that is not a string. */
  function ParsedCsv(csvText: Option<string>, parseFloat: string -> Num): seq<HolderEntry>
  {
    match csvText
    case None => []
    case Some(text) =>
      if text == "" then []
      else
        var lines := CsvLines(text);
        if |lines| < 2 then [] else ParseRows(lines[1..], RowParser(parseFloat))
  }

  /** Parsing one more row appends that row's entry, if it has one. */
  lemma ParseRowsSnoc(rows: seq<string>, n: nat, parseFloat: string -> Num)
    requires n < |rows|
    ensures ParseRows(rows[..n + 1], RowParser(parseFloat)) ==
      ParseRows(rows[..n], RowParser(parseFloat)) +
      (if ParseLine(rows[n], parseFloat).Some? then [ParseLine(rows[n], parseFloat).value] else [])
  {
    assert rows[..n + 1][..n] == rows[..n];
  }

  /** `parseCSV`: skips the header line, then each blank or malformed line,
      and collects one entry per remaining line. */
  method ParseCSV(csvText: Option<string>, parseFloat: string -> Num) returns (result: seq<HolderEntry>)
    ensures result == ParsedCsv(csvText, parseFloat)
    ensures forall k :: 0 <= k < |result| ==> WellFormedEntry(result[k])
  {
    if csvText.None? || csvText.value == "" {
      return [];
    }
    var lines := Split(Trim(csvText.value), '\n');
    if |lines| < 2 {
      return [];
    }
    result := [];
    ghost var rows := lines[1..];
    for i := 1 to |lines|
      invariant result == ParseRows(rows[..i - 1], RowParser(parseFloat))
    {
      ParseRowsSnoc(rows, i - 1, parseFloat);
      assert rows[i - 1] == lines[i];
      var line := Trim(lines[i]);
      if line == "" {
        continue;
      }
      var parts := Split(line, ',');
      if |parts| < 2 {
        continue;
      }
      var address := Trim(parts[0]);
      var amountStr := Trim(parts[1]);
      var amount := parseFloat(amountStr);
      if address == "" || amount.NaN? {
        continue;
      }
      result := result + [HolderEntry(address, amount)];
    }
    assert rows[..|lines| - 1] == rows;
    ParseRowsWellFormed(rows, parseFloat);
  }

  /** A text whose trimmed form has no line feed is a lone header: nothing is parsed. */
  lemma ParsedCsvSingleLine(text: string, parseFloat: string -> Num)
    requires '\n' !in Trim(text)
    ensures ParsedCsv(Some(text), parseFloat) == []
  {
    SplitCount(Trim(text), '\n');
  }

  /** The first line is a header whatever it holds: the entries come from the lines after it. */
  lemma HeaderSkipped(text: string, header: string, body: string, parseFloat: string -> Num)
    requires Trim(text) == header + "\n" + body
    requires '\n' !in header
    ensures ParsedCsv(Some(text), parseFloat) == ParseRows(Split(body, '\n'), RowParser(parseFloat))
  {
    SplitPrefix(header, body, '\n');
    assert text != "";
  }

  /** At most one entry per line after the header. */
  lemma ParsedCsvBound(text: string, parseFloat: string -> Num)
    ensures |ParsedCsv(Some(text), parseFloat)| <= |CsvLines(text)| - 1
  {
    if text == "" {
      SplitCount(Trim(text), '\n');
    }
  }

  /** The address-to-amount map the join builds from the fartcoin ledger,
      one `set` per entry in ledger order */
  function Lookup(fart: seq<HolderEntry>): (m: map<string, Num>)
    ensures forall a :: a in m <==> exists i :: 0 <= i < |fart| && fart[i].address == a
  {
    if fart == [] then map[]
    else
      var prev := Lookup(fart[..|fart| - 1]);
      assert forall i :: 0 <= i < |fart| - 1 ==> fart[..|fart| - 1][i] == fart[i];
      prev[fart[|fart| - 1].address := fart[|fart| - 1].amount]
  }

  /** Last write wins: the map holds the amount of the LAST entry with a given address. */
  lemma {:induction false} LookupLastWins(fart: seq<HolderEntry>, i: nat)
    requires i < |fart|
    requires forall j :: i < j < |fart| ==> fart[j].address != fart[i].address
    ensures Lookup(fart)[fart[i].address] == fart[i].amount
  {
    if i < |fart| - 1 {
      var prefix := fart[..|fart| - 1];
      assert prefix[i] == fart[i];
      LookupLastWins(prefix, i);
    }
  }

  /** The shared list: one entry per goat entry whose address is in the map, in goat order */
  function Shared(goat: seq<HolderEntry>, fartcoinMap: map<string, Num>): (shared: seq<SharedEntry>)
    ensures |shared| <= |goat|
    ensures forall k :: 0 <= k < |shared| ==>
      shared[k].address in fartcoinMap && shared[k].fartAmount == fartcoinMap[shared[k].address]
  {
    if goat == [] then []
    else
      var earlier := Shared(goat[..|goat| - 1], fartcoinMap);
      var wallet := goat[|goat| - 1];
      if wallet.address in fartcoinMap
      then earlier + [SharedEntry(wallet.address, fartcoinMap[wallet.address], wallet.amount)]
      else earlier
  }

  /** The positions of the goat entries that find a partner in the map, ascending */
  ghost function MatchedPositions(goat: seq<HolderEntry>, fartcoinMap: map<string, Num>): (idx: seq<nat>)
    ensures forall k :: 0 <= k < |idx| ==> idx[k] < |goat| && goat[idx[k]].address in fartcoinMap
    ensures forall k, l :: 0 <= k < l < |idx| ==> idx[k] < idx[l]
    ensures forall i :: 0 <= i < |goat| && goat[i].address in fartcoinMap ==> i in idx
  {
    if goat == [] then []
    else
      var earlier := MatchedPositions(goat[..|goat| - 1], fartcoinMap);
      assert forall i :: 0 <= i < |goat| - 1 ==> goat[..|goat| - 1][i] == goat[i];
      if goat[|goat| - 1].address in fartcoinMap then earlier + [|goat| - 1] else earlier
  }

  /** Entry k of the shared list is made from the k-th matched goat entry: its
      address, the map's amount for it and that goat entry's own amount. */
  lemma {:induction false} SharedFollowsGoat(goat: seq<HolderEntry>, fartcoinMap: map<string, Num>)
    ensures var idx := MatchedPositions(goat, fartcoinMap);
      |Shared(goat, fartcoinMap)| == |idx| &&
      forall k :: 0 <= k < |idx| ==>
        Shared(goat, fartcoinMap)[k]
          == SharedEntry(goat[idx[k]].address, fartcoinMap[goat[idx[k]].address], goat[idx[k]].amount)
  {
    if goat != [] {
      var prefix := goat[..|goat| - 1];
      SharedFollowsGoat(prefix, fartcoinMap);
      assert forall i :: 0 <= i < |prefix| ==> prefix[i] == goat[i];
    }
  }

  /** Some entry of the ledger has address `a` */
  predicate Lists(entries: seq<HolderEntry>, a: string)
  {
    exists i :: 0 <= i < |entries| && entries[i].address == a
  }

  /** Some entry of the shared list has address `a` */
  predicate SharedLists(shared: seq<SharedEntry>, a: string)
  {
    exists k :: 0 <= k < |shared| && shared[k].address == a
  }

  /** An address is shared exactly when it occurs in both ledgers. */
  lemma SharedMembership(fart: seq<HolderEntry>, goat: seq<HolderEntry>, a: string)
    ensures SharedLists(Shared(goat, Lookup(fart)), a) <==> Lists(goat, a) && Lists(fart, a)
  {
    var m := Lookup(fart);
    var shared := Shared(goat, m);
    assert Lists(fart, a) <==> a in m;
    if Lists(goat, a) && Lists(fart, a) {
      var i :| 0 <= i < |goat| && goat[i].address == a;
      SharedHasMatch(goat, m, i);
    }
    if SharedLists(shared, a) {
      var k :| 0 <= k < |shared| && shared[k].address == a;
      SharedOnlyMatches(goat, m, k);
      assert a in m;
    }
  }

  /** A goat entry whose address is in the map shows up in the shared list. */
  lemma {:induction false} SharedHasMatch(goat: seq<HolderEntry>, fartcoinMap: map<string, Num>, i: nat)
    requires i < |goat| && goat[i].address in fartcoinMap
    ensures exists k :: 0 <= k < |Shared(goat, fartcoinMap)| && Shared(goat, fartcoinMap)[k].address == goat[i].address
  {
    var n := |goat|;
    if i < n - 1 {
      var prefix := goat[..n - 1];
      assert prefix[i] == goat[i];
      SharedHasMatch(prefix, fartcoinMap, i);
      var k :| 0 <= k < |Shared(prefix, fartcoinMap)| && Shared(prefix, fartcoinMap)[k].address == goat[i].address;
      assert Shared(goat, fartcoinMap)[k] == Shared(prefix, fartcoinMap)[k];
    } else {
      var k := |Shared(goat, fartcoinMap)| - 1;
      assert Shared(goat, fartcoinMap)[k].address == goat[i].address;
    }
  }

  /** Every shared entry comes from a goat entry with the same address. */
  lemma {:induction false} SharedOnlyMatches(goat: seq<HolderEntry>, fartcoinMap: map<string, Num>, k: nat)
    requires k < |Shared(goat, fartcoinMap)|
    ensures exists i :: 0 <= i < |goat| && goat[i].address == Shared(goat, fartcoinMap)[k].address
  {
    var n := |goat|;
    var prefix := goat[..n - 1];
    if k < |Shared(prefix, fartcoinMap)| {
      SharedOnlyMatches(prefix, fartcoinMap, k);
      var i :| 0 <= i < |prefix| && prefix[i].address == Shared(prefix, fartcoinMap)[k].address;
      assert goat[i] == prefix[i];
    } else {
      assert Shared(goat, fartcoinMap)[k].address == goat[n - 1].address;
    }
  }

  /** The join as `loadWalletData` runs it: a map filled from the fartcoin
      ledger, then a pass over the goat ledger. */
  method SharedJoin(fart: seq<HolderEntry>, goat: seq<HolderEntry>) returns (sharedHolders: seq<SharedEntry>)
    ensures sharedHolders == Shared(goat, Lookup(fart))
  {
    var fartcoinMap: map<string, Num> := map[];
    for i := 0 to |fart|
      invariant fartcoinMap == Lookup(fart[..i])
    {
      assert fart[..i + 1][..i] == fart[..i];
      fartcoinMap := fartcoinMap[fart[i].address := fart[i].amount];
    }
    assert fart[..|fart|] == fart;
    sharedHolders := [];
    for i := 0 to |goat|
      invariant sharedHolders == Shared(goat[..i], fartcoinMap)
    {
      assert goat[..i + 1][..i] == goat[..i];
      var wallet := goat[i];
      if wallet.address in fartcoinMap {
        sharedHolders := sharedHolders + [SharedEntry(wallet.address, fartcoinMap[wallet.address], wallet.amount)];
      }
    }
    assert goat[..|goat|] == goat;
  }

  /** The address normalisation pass: every address is replaced by its lower-cased form. */
  method NormalizeAddresses(data: seq<HolderEntry>) returns (normalized: seq<HolderEntry>)
    ensures |normalized| == |data|
    ensures forall k :: 0 <= k < |data| ==>
      normalized[k] == HolderEntry(ToLower(data[k].address), data[k].amount)
  {
    normalized := data;
    for i := 0 to |data|
      invariant |normalized| == |data|
      invariant forall k :: 0 <= k < i ==> normalized[k] == HolderEntry(ToLower(data[k].address), data[k].amount)
      invariant forall k :: i <= k < |data| ==> normalized[k] == data[k]
    {
      normalized := normalized[i := normalized[i].(address := ToLower(normalized[i].address))];
    }
  }

  /** Every address in the list is its own lower-cased form. */
  predicate LowerCased(data: seq<HolderEntry>)
  {
    forall k :: 0 <= k < |data| ==> ToLower(data[k].address) == data[k].address
  }

  /** The embedded fartcoin ledger, used when the fetch yields nothing */
  const FartcoinCsv: string :=
    "Account,Quantity\n"
    + "u6PJ8DtQuPFnfmwHbGFULQ4u4EgjDiyYKjVEsynXq2w,53353226.72\n"
    + "9SLPTL41SPsYkgdsMzdfJsxymEANKr5bYoBsQzJyKpKS,19700515.36\n"
    + "F7RkX6Y1qTfBqoX5oHoZEgrG1Dpy55UZ3GfWwPbM58nQ,18358622.60\n"
    + "A77HErqtfN1hLLpvZ9pCtu66FEtM8BveoaKbbMoZ4RiR,17700127.59\n"
    + "44P5Ct5JkPz76Rs2K6juC65zXMpFRDrHatxcASJ4Dyra,16151152.36\n"
    + "9cNE6KBg2Xmf34FPMMvzDF8yUHMrgLRzBV3vD7b1JnUS,12645354.91\n"
    + "38ESLHdJkqNvMbJmbgsHJGXjJPpsL4TkvSUgXegYgvpr,10001047.32\n"
    + "5Q544fKrFoe6tsEbD7S8EmxGTJYAKtTVhAW5Q5pge4j1,9042762.02\n"
    + "AcFmVa1HJTKkz6qn4sfLAFvjKqd914KgdaNHGEszMR5Q,8891026.60\n"
    + "GxhQ5LTFc4dTxAXt7aQ4uSKvr8ev9T2QXE9zWKA3pjFP,8591047.43\n"
    + "79sJvLQ3QrL88Uc9jgV3iTT5Ft19xtMbjmAkhgoKh38W,7932329.62\n"
    + "FWznbcNXWQuHTawe9RxvQ2LdCENssh12dsznf4RiouN5,7763719.78\n"
    + "7QAFvj11sS5kgNh7otR3EGEZbGRHR3nMwNz31rTcDm8P,7523424.67\n"
    + "Ait7nuyWJSxHF7c1WX2CQ7AHFa2nPFYYg84xL5nPhYtn,7025023.12\n"
    + "DBmae92YTQKLsNzXcPscxiwPqMcz9stQr2prB5ZCAHPd,6728342.10\n"
    + "ASTyfSima4LLAdDgoFGkgqoKowG1LZFDr9fAQrg7iaJZ,6655043.23\n"
    + "HVh6wHNBAsG3pq1Bj5oCzRjoWKVogEDHwUHkRz3ekFgt,6251889.47\n"
    + "8icKqfmu95pCmfQLc2cLkmhB7LqN8tRaaE4cvKnGpwpq,6002400.00\n"
    + "DHeiaWt2MzA5BgBU6FQe6V3K8akJMcDbXYxrqPV19F9U,6000100.00"

  /** The embedded goat token ledger */
  const GoatTokenCsv: string :=
    "Account,Quantity(GOAT)\n"
    + "8Mm46CsqxiyAputDUp2cXHg41HE3BfynTeMBDwzrMZQH,112378114.33\n"
    + "hTvwKr1RvQdPS5xiWfXM2UZYuF55Ei8zzsuB7e58feu,109758331.88\n"
    + "AC5RDfQFmDS1deWZos921JfqscXdByf8BKHs5ACWjtW2,67456670.68\n"
    + "CBEADkb8TZAXHjVE3zwad4L995GZE7rJcacJ7asebkVG,52117385.50\n"
    + "u6PJ8DtQuPFnfmwHbGFULQ4u4EgjDiyYKjVEsynXq2w,41100416.44\n"
    + "JBQ1suc4GJBbVYP6y2poGjoDCFrfjtGSEJRt4deasyNe,32829674.18\n"
    + "A77HErqtfN1hLLpvZ9pCtu66FEtM8BveoaKbbMoZ4RiR,32479739.27\n"
    + "4vmjUC6AtFK4JyF9CrcBM8Wtq9fFvUSa31pLWJumGMZ,29012410.64\n"
    + "81BgcfZuZf9bESLvw3zDkh7cZmMtDwTPgkCvYu7zx26o,27626054.69\n"
    + "7XmrmvNNGc3LHqq3HqGHnCdgoAQv4yx7kHwYqtiMPzgD,24226306.00\n"
    + "8DBwT4zFqHmK5KU4kMj1zceQANHwf76NRuhevB7ZSoEc,22284354.03\n"
    + "5Q544fKrFoe6tsEbD7S8EmxGTJYAKtTVhAW5Q5pge4j1,18023656.63\n"
    + "5PAhQiYdLBd6SVdjzBQDxUAEFyDdF5ExNPQfcscnPRj5,16718869.33\n"
    + "417ccNwQnQykVbFUDKd3sh6xHKGSRTaCTWr6sdR9ZuCa,10704068.07\n"
    + "6FEVkH17P9y8Q9aCkDdPcMDjvj7SVxrTETaYEm8f51Jy,8875472.76\n"
    + "2tU4k62hFNMwwxrynmudXGv3csNQuxLtDBUsxAMt9SdL,8698591.41\n"
    + "Ezhr48hfsyUg9zoAq7CH5opi7NbSM34RjrVFf4n8cVpo,8539942.52\n"
    + "DBmae92YTQKLsNzXcPscxiwPqMcz9stQr2prB5ZCAHPd,8189534.80\n"
    + "HVh6wHNBAsG3pq1Bj5oCzRjoWKVogEDHwUHkRz3ekFgt,7987933.45"

  /** The last-resort fartcoin list, used when parsing yields no entry */
  const FallbackFartcoin: seq<HolderEntry> := [
    HolderEntry("wallet1", Fin(1000000.0)),
    HolderEntry("wallet2", Fin(900000.0)),
    HolderEntry("wallet3", Fin(800000.0)),
    HolderEntry("shared1", Fin(700000.0)),
    HolderEntry("shared2", Fin(600000.0))
  ]

  /** The last-resort goat token list */
  const FallbackGoat: seq<HolderEntry> := [
    HolderEntry("wallet4", Fin(500000.0)),
    HolderEntry("wallet5", Fin(400000.0)),
    HolderEntry("wallet6", Fin(300000.0)),
    HolderEntry("shared1", Fin(200000.0)),
    HolderEntry("shared2", Fin(100000.0))
  ]

  /** The data `initializeData` installs when loading rejects */
  const EmergencyData: WalletData := WalletData(
    FallbackFartcoin,
    FallbackGoat,
    [SharedEntry("shared1", Fin(700000.0), Fin(200000.0)),
     SharedEntry("shared2", Fin(600000.0), Fin(100000.0))])

  /** A fetch result that `if (text)` accepts: a non-empty string */
  predicate Fetched(text: Option<string>)
  {
    text.Some? && text.value != ""
  }

  /** The ledger one source yields before normalisation: the fetched text
      when there is one, the embedded text otherwise, and the fixed list when
      that parse comes back empty. */
  function ChosenLedger(fetched: Option<string>, embedded: string, fallback: seq<HolderEntry>,
                        parseFloat: string -> Num): seq<HolderEntry>
  {
    var parsed := if Fetched(fetched) then ParsedCsv(fetched, parseFloat) else ParsedCsv(Some(embedded), parseFloat);
    if parsed == [] then fallback else parsed
  }

  /** `loadWalletData`. Each ledger chooses its source on its own; both lists
      are non-empty and lower-cased; the shared list is their join. */
  method LoadWalletData(fartcoinCsvText: Option<string>, goatTokenCsvText: Option<string>,
                        parseFloat: string -> Num) returns (data: WalletData)
    ensures var chosen := ChosenLedger(fartcoinCsvText, FartcoinCsv, FallbackFartcoin, parseFloat);
      |data.fartcoinHolders| == |chosen| &&
      forall k :: 0 <= k < |chosen| ==>
        data.fartcoinHolders[k] == HolderEntry(ToLower(chosen[k].address), chosen[k].amount)
    ensures var chosen := ChosenLedger(goatTokenCsvText, GoatTokenCsv, FallbackGoat, parseFloat);
      |data.goatTokenHolders| == |chosen| &&
      forall k :: 0 <= k < |chosen| ==>
        data.goatTokenHolders[k] == HolderEntry(ToLower(chosen[k].address), chosen[k].amount)
    ensures data.fartcoinHolders != [] && data.goatTokenHolders != []
    ensures LowerCased(data.fartcoinHolders) && LowerCased(data.goatTokenHolders)
    ensures data.sharedHolders == Shared(data.goatTokenHolders, Lookup(data.fartcoinHolders))
  {
    var fartcoinData := LoadLedger(fartcoinCsvText, FartcoinCsv, FallbackFartcoin, parseFloat);
    var goatTokenData := LoadLedger(goatTokenCsvText, GoatTokenCsv, FallbackGoat, parseFloat);
    var sharedHolders := SharedJoin(fartcoinData, goatTokenData);
    data := WalletData(fartcoinData, goatTokenData, sharedHolders);
  }

  /** The steps of `loadWalletData` that concern one ledger: source choice,
      the fixed-list fallback and the lower-casing pass */
  method LoadLedger(csvText: Option<string>, embedded: string, fallback: seq<HolderEntry>,
                    parseFloat: string -> Num) returns (holders: seq<HolderEntry>)
    requires fallback != []
    ensures var chosen := ChosenLedger(csvText, embedded, fallback, parseFloat);
      |holders| == |chosen| &&
      forall k :: 0 <= k < |chosen| ==> holders[k] == HolderEntry(ToLower(chosen[k].address), chosen[k].amount)
    ensures holders != [] && LowerCased(holders)
  {
    var parsed: seq<HolderEntry>;
    if Fetched(csvText) {
      parsed := ParseCSV(csvText, parseFloat);
    } else {
      parsed := ParseCSV(Some(embedded), parseFloat);
    }
    if |parsed| == 0 {
      parsed := fallback;
    }
    holders := NormalizeAddresses(parsed);
    forall k | 0 <= k < |holders| ensures ToLower(holders[k].address) == holders[k].address {
      ToLowerIdempotent(parsed[k].address);
    }
  }

  /** The emergency shared list is exactly the join of the two emergency ledgers. */
  lemma EmergencySharedIsJoin()
    ensures EmergencyData.sharedHolders == Shared(FallbackGoat, Lookup(FallbackFartcoin))
  {
    var m := Lookup(FallbackFartcoin);
    EmergencyLookup();
    var g := FallbackGoat;
    assert g[..1][..0] == [] && g[..2][..1] == g[..1] && g[..3][..2] == g[..2];
    assert g[..4][..3] == g[..3] && g[..5][..4] == g[..4] && g[..5] == g;
    assert Shared(g[..1], m) == [];
    assert Shared(g[..2], m) == [];
    assert Shared(g[..3], m) == [];
  }

  /** The map built from the emergency fartcoin list */
  lemma EmergencyLookup()
    ensures var m := Lookup(FallbackFartcoin);
      "wallet4" !in m && "wallet5" !in m && "wallet6" !in m &&
      m["shared1"] == Fin(700000.0) && m["shared2"] == Fin(600000.0)
  {
    var f := FallbackFartcoin;
    assert f[..5] == f;
    assert f[..5][..4] == f[..4];
    var m4 := Lookup(f[..4]);
    assert Lookup(f) == m4["shared2" := Fin(600000.0)];
    assert f[..4][..3] == f[..3];
    assert m4 == Lookup(f[..3])["shared1" := Fin(700000.0)];
    forall a | a in ["wallet4", "wallet5", "wallet6"]
      ensures a !in Lookup(f)
    {
      forall i | 0 <= i < |f|
        ensures f[i].address != a
      {
        assert f[i].address[6] != a[6];
      }
    }
  }

  /** The module-level exported arrays that `initializeData` reassigns */
  class WalletStore {
    var fartcoinHolders: seq<HolderEntry>
    var goatTokenHolders: seq<HolderEntry>
    var sharedHolders: seq<SharedEntry>

    /** The shared list is the join of the two ledgers. */
    predicate Joined()
      reads this
    {
      sharedHolders == Shared(goatTokenHolders, Lookup(fartcoinHolders))
    }

    constructor ()
      ensures fartcoinHolders == [] && goatTokenHolders == [] && sharedHolders == []
      ensures Joined()
    {
      fartcoinHolders, goatTokenHolders, sharedHolders := [], [], [];
    }

    /** `initializeData`: awaits `loadWalletData` on the two fetch results and
        installs its result, or the emergency data when the await rejects
        (`rejects`). Nothing in the modelled loader throws, so `rejects`
        stands for a failure in code outside this model. */
    method InitializeData(fartcoinCsvText: Option<string>, goatTokenCsvText: Option<string>,
                          parseFloat: string -> Num, rejects: bool) returns (data: WalletData)
      modifies this
      ensures rejects ==> data == EmergencyData
      ensures !rejects ==>
        var chosen := ChosenLedger(fartcoinCsvText, FartcoinCsv, FallbackFartcoin, parseFloat);
        |data.fartcoinHolders| == |chosen| &&
        forall k :: 0 <= k < |chosen| ==>
          data.fartcoinHolders[k] == HolderEntry(ToLower(chosen[k].address), chosen[k].amount)
      ensures !rejects ==>
        var chosen := ChosenLedger(goatTokenCsvText, GoatTokenCsv, FallbackGoat, parseFloat);
        |data.goatTokenHolders| == |chosen| &&
        forall k :: 0 <= k < |chosen| ==>
          data.goatTokenHolders[k] == HolderEntry(ToLower(chosen[k].address), chosen[k].amount)
      ensures !rejects ==> LowerCased(data.fartcoinHolders) && LowerCased(data.goatTokenHolders)
      ensures fartcoinHolders == data.fartcoinHolders
      ensures goatTokenHolders == data.goatTokenHolders
      ensures sharedHolders == data.sharedHolders
      ensures fartcoinHolders != [] && goatTokenHolders != []
      ensures Joined()
    {
      if !rejects {
        data := LoadWalletData(fartcoinCsvText, goatTokenCsvText, parseFloat);
      } else {
        EmergencySharedIsJoin();
        data := EmergencyData;
      }
      fartcoinHolders := data.fartcoinHolders;
      goatTokenHolders := data.goatTokenHolders;
      sharedHolders := data.sharedHolders;
    }
  }
}
