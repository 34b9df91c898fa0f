/**
 * The row normalisers of the import routes: `rowToItem` for client sheets,
 * `rowToInstagram` with its `toBool` for lead-account sheets, and the
 * `rows.map(...).filter(Boolean)` that keeps the rows they accept.
 */
module RowNormalizers {
  import opened Wrappers
  import opened JsValues
  import opened Records
  import opened CountryResolver
  import Chunks

  const NameLimit: nat := 255
  const PhoneLimit: nat := 50
  const LinkLimit: nat := 500

  // ------------------------------------------------------------ client rows

  /** `row.name || row.name_for_emails || row.query || ''`. */
  function NameSource(row: Row): Cell {
    FirstTruthy([Get(row, "name"), Get(row, "name_for_emails"), Get(row, "query")], Str(""))
  }

  /** `row.name || row.city || row.address || ''`. */
  function CompanySource(row: Row): Cell {
    FirstTruthy([Get(row, "name"), Get(row, "city"), Get(row, "address")], Str(""))
  }

  /** `row.email || row.website || ''`. */
  function EmailSource(row: Row): Cell {
    FirstTruthy([Get(row, "email"), Get(row, "website")], Str(""))
  }

  /** `v ? String(v).trim().slice(0, limit) : null`: `null` exactly for a
      falsy cell, else the first `limit` characters of the trimmed text. */
  function OptionalText(v: Cell, limit: nat): (r: Option<string>)
    ensures r.None? <==> !Truthy(v)
    ensures r.Some? ==> |r.value| == Chunks.Min(|Trim(Text(v))|, limit) && r.value <= Trim(Text(v))
  {
    if Truthy(v) then Some(Truncate(Trim(Text(v)), limit)) else None
  }

  /** A row `rowToItem` accepts: its name source is text that is not all
      white space. */
  predicate HasName(row: Row) {
    NameSource(row).Str? && !AllSpace(NameSource(row).s)
  }

  /** The client `rowToItem` builds from a row with a name. */
  function ClientOf(row: Row): (c: Client)
    requires HasName(row)
    ensures 0 < |c.name| <= NameLimit && c.name <= Trim(NameSource(row).s) && !IsSpace(c.name[0])
    ensures |c.name| == Chunks.Min(|Trim(NameSource(row).s)|, NameLimit)
    ensures c.status == "active"
    ensures c.phone == OptionalText(Get(row, "phone"), PhoneLimit)
    ensures c.company == OptionalText(CompanySource(row), NameLimit)
    ensures c.email == OptionalText(EmailSource(row), NameLimit)
  {
    var name := Truncate(Trim(NameSource(row).s), NameLimit);
    assert name[0] == Trim(NameSource(row).s)[0];
    Client(
      name,
      OptionalText(Get(row, "phone"), PhoneLimit),
      OptionalText(CompanySource(row), NameLimit),
      OptionalText(EmailSource(row), NameLimit),
      "active")
  }

  /** `mapCountry(row) || 'Россия'`: never empty. */
  function ItemCountry(row: Row): (r: string)
    ensures r != ""
    ensures MapCountry(row).None? ==> r == DefaultCountry
    ensures MapCountry(row).Some? ==> r == MapCountry(row).value
  {
    match MapCountry(row)
    case Some(k) => MapCountryRange(row); k
    case None => DefaultCountry
  }

  /** `rowToItem`: `None` (the source's `null`) exactly for a row without a
      name; otherwise the row's client with its resolved country. */
  function RowToItem(row: Row): (r: Option<Item>)
    ensures r.None? <==> !HasName(row)
    ensures r.Some? ==> r.value.client == ClientOf(row) && r.value.country == ItemCountry(row)
  {
    var name := NameSource(row);
    if !Truthy(name) || !name.Str? || Trim(name.s) == "" then None
    else Some(Item(ClientOf(row), ItemCountry(row)))
  }

  /** The cells of the sample rows below. */
  lemma SampleRows()
    ensures NameSource(map["name" := Str("  ")]) == Str("  ")
    ensures NameSource(map["name" := Str("Acme"), "phone" := Str(" ")]) == Str("Acme")
    ensures Get(map["name" := Str("Acme"), "phone" := Str(" ")], "phone") == Str(" ")
    ensures AllSpace("  ") && !AllSpace("Acme")
    ensures OptionalText(Str(" "), PhoneLimit) == Some("")
  {
    assert !IsSpace("Acme"[0]);
    assert Trim(" ") == "";
  }

  /** A name cell that is text but only white space skips the row. */
  lemma BlankNameSkipsRow()
    ensures RowToItem(map["name" := Str("  ")]) == None
  {
    SampleRows();
  }

  /** A phone cell that is only white space gives an empty phone, not `null`. */
  lemma BlankPhoneIsEmpty()
    ensures var r := RowToItem(map["name" := Str("Acme"), "phone" := Str(" ")]);
      r.Some? && r.value.client.phone == Some("")
  {
    SampleRows();
  }

  /** A number in the name column skips the row even though it is truthy. */
  lemma NumericNameSkipsRow(n: int)
    requires n != 0
    ensures RowToItem(map["name" := Num(n)]) == None
  {
    assert NameSource(map["name" := Num(n)]) == Num(n);
  }

  /** `rows.map(rowToItem).filter(Boolean)`. */
  function NormalizeClients(rows: seq<Row>): (items: seq<Item>)
    ensures |items| <= |rows|
  {
    if rows == [] then []
    else
      var rest := NormalizeClients(rows[1..]);
      match RowToItem(rows[0]) case Some(it) => [it] + rest case None => rest
  }

  /** The number of rows `rowToItem` skips. */
  function SkippedClientRows(rows: seq<Row>): nat {
    if rows == [] then 0
    else (if HasName(rows[0]) then 0 else 1) + SkippedClientRows(rows[1..])
  }

  /** Every row is either imported as an item or skipped, and the items keep
      the order of their rows: normalising a concatenation is concatenating
      the normalised parts. */
  lemma {:induction false} NormalizeClientsCounts(rows: seq<Row>)
    ensures |NormalizeClients(rows)| + SkippedClientRows(rows) == |rows|
    ensures NormalizeClients(rows) == [] <==> SkippedClientRows(rows) == |rows|
  {
    if rows != [] {
      NormalizeClientsCounts(rows[1..]);
    }
  }

  lemma {:induction false} NormalizeClientsConcat(a: seq<Row>, b: seq<Row>)
    ensures NormalizeClients(a + b) == NormalizeClients(a) + NormalizeClients(b)
  {
    if a == [] {
      assert a + b == b;
    } else {
      assert (a + b)[0] == a[0] && (a + b)[1..] == a[1..] + b;
      NormalizeClientsConcat(a[1..], b);
    }
  }

  /** An accepted row contributes exactly its item. */
  lemma NormalizeClientsSingle(row: Row)
    ensures NormalizeClients([row]) == match RowToItem(row) case Some(it) => [it] case None => []
  {
    assert [row][1..] == [];
  }

  // ------------------------------------------------------- lead-account rows

  /** `toBool`: `true` for the boolean `true`, the exact strings `'1'`,
      `'да'`, `'yes'`, and any string whose lower-case form is `'true'` or
      `'истина'`; `false` for everything else. */
  function ToBool(v: Cell): bool {
    if v == Bool(true) || v == Str("true") || v == Str("1") || v == Str("да") || v == Str("yes") then true
    else
      var s := Lower(Text(v));
      s == "истина" || s == "true"
  }

  /** A digit string has no upper-case letter, so it lower-cases to itself. */
  lemma DecimalIsLower(n: int)
    ensures Lower(Decimal(n)) == Decimal(n)
  {
    var d := Decimal(n);
    forall i | 0 <= i < |d| ensures !IsUpper(d[i]) {
      assert IsDigit(d[i]) || d[i] == '-';
    }
    LowerOfLower(d);
  }

  /** Only text and the boolean `true` can be true: a number (1 included)
      and `undefined` are false, a boolean is itself. */
  lemma ToBoolOfNonText(v: Cell)
    requires !v.Str?
    ensures ToBool(v) == (v == Bool(true))
  {
    match v
    case Num(n) =>
      var d := Decimal(n);
      DecimalIsLower(n);
      assert Lower(Text(v)) == d;
      assert IsDigit(d[0]) || d[0] == '-';
      assert d != "истина" && d != "true";
    case Bool(b) =>
      if !b {
        assert Lower("false") == "false";
      }
    case Empty =>
      assert Lower("undefined") == "undefined";
  }

  /** `'true'` and `'истина'` are matched in any case. */
  lemma ToBoolIgnoresCaseOfTrue()
    ensures ToBool(Str("TRUE")) && ToBool(Str("True")) && ToBool(Str("ИСТИНА"))
  {
    assert Lower("TRUE") == "true";
    assert Lower("True") == "true";
    assert Lower("ИСТИНА") == "истина";
  }

  /** `'1'`, `'да'` and `'yes'` are matched only exactly as written. */
  lemma ToBoolExactWords()
    ensures ToBool(Str("1")) && ToBool(Str("да")) && ToBool(Str("yes"))
    ensures !ToBool(Str("Да")) && !ToBool(Str("YES")) && !ToBool(Str("Yes"))
  {
    assert Lower("Да") == "да";
    assert Lower("YES") == "yes";
    assert Lower("Yes") == "yes";
  }

  /** Other texts are false, white space included. */
  lemma ToBoolOtherWords()
    ensures !ToBool(Str("0")) && !ToBool(Str("")) && !ToBool(Str("no")) && !ToBool(Str("true "))
  {
    assert Lower("0") == "0";
    assert Lower("") == "";
    assert Lower("no") == "no";
    assert Lower("true ") == "true ";
  }

  /** A text accepted by `toBool` stays accepted once lower-cased. */
  lemma ToBoolOfLower(s: string)
    requires ToBool(Str(s))
    ensures ToBool(Str(Lower(s)))
  {
    LowerIdempotent(s);
    if s == "1" { assert Lower(s) == "1"; }
    else if s == "да" { assert Lower(s) == "да"; }
    else if s == "yes" { assert Lower(s) == "yes"; }
  }

  /** `row.username || row.Username || ''`. */
  function UsernameSource(row: Row): Cell {
    FirstTruthy([Get(row, "username"), Get(row, "Username")], Str(""))
  }

  /** `row.user_link || row.link || ''`. */
  function UserLinkSource(row: Row): Cell {
    FirstTruthy([Get(row, "user_link"), Get(row, "link")], Str(""))
  }

  /** `row.full_name || row.name || ''`. */
  function FullNameSource(row: Row): Cell {
    FirstTruthy([Get(row, "full_name"), Get(row, "name")], Str(""))
  }

  /** `(a || b || '').toString().trim().slice(0, limit) || null`. */
  function TrimmedOrNull(v: Cell, limit: nat): (r: Option<string>)
    requires limit > 0
    ensures r.None? <==> (v.Str? && AllSpace(v.s)) || !Truthy(v)
    ensures r.Some? ==> 0 < |r.value| <= limit && !IsSpace(r.value[0])
    ensures r.Some? ==> |r.value| == Chunks.Min(|Trim(Text(v))|, limit) && r.value <= Trim(Text(v))
  {
    var s := Trim(Text(if Truthy(v) then v else Str("")));
    var t := Truncate(s, limit);
    assert t == "" <==> s == "";
    assert v.Num? ==> !IsSpace(Decimal(v.n)[0]);
    if t == "" then None else Some(t)
  }

  predicate HasUsername(row: Row) {
    UsernameSource(row).Str? && !AllSpace(UsernameSource(row).s)
  }

  /** `rowToInstagram`: `None` exactly for a row without a username text;
      otherwise an account whose username is the trimmed username cut to
      255 characters, whose link and full name are `null` when blank and
      within 500 characters otherwise, and whose flags are `toBool` of
      their cells. */
  function RowToAccount(row: Row): (r: Option<Account>)
    ensures r.None? <==> !HasUsername(row)
    ensures r.Some? ==> 0 < |r.value.username| <= NameLimit
    ensures r.Some? ==> r.value.username <= Trim(UsernameSource(row).s)
    ensures r.Some? ==> |r.value.username| == Chunks.Min(|Trim(UsernameSource(row).s)|, NameLimit)
    ensures r.Some? ==> r.value.userLink == TrimmedOrNull(UserLinkSource(row), LinkLimit)
    ensures r.Some? ==> r.value.fullName == TrimmedOrNull(FullNameSource(row), LinkLimit)
    ensures r.Some? && r.value.userLink.Some? ==> 0 < |r.value.userLink.value| <= LinkLimit
    ensures r.Some? && r.value.fullName.Some? ==> 0 < |r.value.fullName.value| <= LinkLimit
    ensures r.Some? ==> r.value.isPrivate == ToBool(Get(row, "is_private"))
    ensures r.Some? ==> r.value.isVerified == ToBool(Get(row, "is_verified"))
  {
    var username := UsernameSource(row);
    if !Truthy(username) || !username.Str? || Trim(username.s) == "" then None
    else
      Some(Account(
        Truncate(Trim(username.s), NameLimit),
        TrimmedOrNull(UserLinkSource(row), LinkLimit),
        TrimmedOrNull(FullNameSource(row), LinkLimit),
        ToBool(Get(row, "is_private")),
        ToBool(Get(row, "is_verified"))))
  }

  /** `rows.map(rowToInstagram).filter(Boolean)`. */
  function NormalizeAccounts(rows: seq<Row>): (accounts: seq<Account>)
    ensures |accounts| <= |rows|
  {
    if rows == [] then []
    else
      var rest := NormalizeAccounts(rows[1..]);
      match RowToAccount(rows[0]) case Some(a) => [a] + rest case None => rest
  }

  function SkippedAccountRows(rows: seq<Row>): nat {
    if rows == [] then 0
    else (if HasUsername(rows[0]) then 0 else 1) + SkippedAccountRows(rows[1..])
  }

  lemma {:induction false} NormalizeAccountsCounts(rows: seq<Row>)
    ensures |NormalizeAccounts(rows)| + SkippedAccountRows(rows) == |rows|
    ensures NormalizeAccounts(rows) == [] <==> SkippedAccountRows(rows) == |rows|
  {
    if rows != [] {
      NormalizeAccountsCounts(rows[1..]);
    }
  }
}
