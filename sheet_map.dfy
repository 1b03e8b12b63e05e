/**
 * `to_json` (server.js:41-48): one pass over the workbook's sheet names that
 * adds a name -> rows entry to a fresh result object for every sheet with at
 * least one row. The spreadsheet library's `sheet_to_json` is a parameter.
 */
module SheetMap {

  /**
   * The result has an entry for a sheet name exactly when that name is one of
   * the workbook's sheets and its row list is non-empty, and the entry is
   * that row list.
   */
  method ToJson<Cell>(sheetNames: seq<string>, sheetToJson: string -> seq<seq<Cell>>)
    returns (result: map<string, seq<seq<Cell>>>)
    ensures forall name :: name in result <==> name in sheetNames && |sheetToJson(name)| > 0
    ensures forall name :: name in result ==> result[name] == sheetToJson(name)
  {
    result := map[];
    var k := 0;
    while k < |sheetNames|
      invariant 0 <= k <= |sheetNames|
      invariant forall name :: name in result <==> name in sheetNames[..k] && |sheetToJson(name)| > 0
      invariant forall name :: name in result ==> result[name] == sheetToJson(name)
    {
      var sheetName := sheetNames[k];
      var roa := sheetToJson(sheetName);
      if |roa| > 0 {
        result := result[sheetName := roa];
      }
      assert sheetNames[..k + 1] == sheetNames[..k] + [sheetName];
      k := k + 1;
    }
    assert sheetNames[..k] == sheetNames;
  }
}
