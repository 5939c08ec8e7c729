/** The admin's QR code page: one link per table, the file each code is
    saved under, and "download all". */
module QrCodes {
  import opened Types
  import opened Wrappers
  import opened JsText
  import CustomerMenu

  /** The menu link printed on a table: the site's origin, `/menu`, and the
      table number as the `table` parameter. */
  function TableUrl(origin: string, table: nat): (url: string)
    ensures '?' !in origin && '#' !in origin ==> QueryParam(url, "table") == Some(Decimal(table))
  {
    var url := origin + "/menu?table=" + Decimal(table);
    TableUrlQuery(origin, table, url);
    url
  }

  /** A table link is its path, a `?`, and the `table=` pair. */
  lemma TableUrlShape(origin: string, d: string)
    ensures origin + "/menu?table=" + d == (origin + "/menu") + "?" + ("table=" + d)
  {
  }

  lemma TableUrlQuery(origin: string, table: nat, url: string)
    requires url == origin + "/menu?table=" + Decimal(table)
    ensures '?' !in origin && '#' !in origin ==> QueryParam(url, "table") == Some(Decimal(table))
  {
    if '?' !in origin && '#' !in origin {
      var d := Decimal(table);
      DecimalHasNoMarks(table);
      TableUrlSearch(origin, d);
      SinglePairParam(url, "table", d);
    }
  }

  /** The search part of a table link is its `table=` pair. */
  lemma TableUrlSearch(origin: string, d: string)
    requires '?' !in origin && '#' !in origin && '#' !in d
    ensures QueryOf(origin + "/menu?table=" + d) == "table=" + d
  {
    TableUrlShape(origin, d);
    assert '?' !in origin + "/menu" && '#' !in origin + "/menu";
    assert '#' !in "table=" + d;
    QueryAfterFirstMark(origin + "/menu", "table=" + d);
  }

  /** A scanned table link fills the checkout field with a number that
      checkout accepts as that very table. */
  lemma TableLinkRoundTrip(origin: string, table: nat)
    requires '?' !in origin && '#' !in origin
    ensures CustomerMenu.InitialTableField(TableUrl(origin, table)) == Decimal(table)
    ensures CustomerMenu.CheckoutTable(CustomerMenu.InitialTableField(TableUrl(origin, table))) == Some(table)
  {
    CustomerMenu.CheckoutAcceptsAnyNumber(table);
  }

  /** The tables given a card: 1 to the configured count, none when it is not positive. */
  function TableNumbers(count: int): (tables: seq<nat>)
    ensures |tables| == if count > 0 then count else 0
    ensures forall i :: 0 <= i < |tables| ==> tables[i] == i + 1
  {
    if count <= 0 then [] else seq(count, i requires 0 <= i < count => i + 1)
  }

  /** The name a table's code is saved under. */
  function FileName(table: nat): (name: string)
    ensures |name| == |Decimal(table)| + 13
    ensures name[..6] == "table-" && name[|name| - 7..] == "-qr.png"
    ensures name[6..|name| - 7] == Decimal(table)
  {
    "table-" + Decimal(table) + "-qr.png"
  }

  /** Different tables are saved under different names. */
  lemma FileNamesDistinct(a: nat, b: nat)
    requires a != b
    ensures FileName(a) != FileName(b)
  {
    if FileName(a) == FileName(b) {
      assert Decimal(a) == Decimal(b);
      DecimalValue(a);
      DecimalValue(b);
    }
  }

  /** "Download all": one saved file per table, in table order. */
  method DownloadAll(numberOfTables: int) returns (files: seq<string>)
    ensures |files| == |TableNumbers(numberOfTables)|
    ensures forall i :: 0 <= i < |files| ==> files[i] == FileName(TableNumbers(numberOfTables)[i])
  {
    files := [];
    var i := 1;
    while i <= numberOfTables
      invariant 1 <= i <= (if numberOfTables > 0 then numberOfTables else 0) + 1
      invariant |files| == i - 1
      invariant forall j :: 0 <= j < |files| ==> files[j] == FileName(j + 1)
    {
      files := files + [FileName(i)];
      i := i + 1;
    }
  }

  /** The default-logo notice shows while no logo has been set. */
  function DefaultLogoNotice(settings: ShopSettings): (shown: bool)
    ensures shown <==> settings.logoUrl.None? || settings.logoUrl == Some("")
  {
    settings.logoUrl.None? || settings.logoUrl.value == ""
  }
}
