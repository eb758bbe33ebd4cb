/**
 * UriHelper.getPath: resolve a picked document to a file-system path. The platform
 * queries are parameters: whether the SDK level is at least M, the display name the
 * content resolver returns (None when there is no row), the external storage
 * directory, the document id, the URI's path, what `Long.valueOf` makes of a string
 * (None for a NumberFormatException) and what `getDataColumn` answers for a URI
 * (None for Java's null).
 */
module UriHelper {
  import opened Wrappers
  import opened Text

  const ND := "ND"
  const RawPrefix := "raw:"
  const PublicDownloads := "content://downloads/public_downloads"
  const MyDownloads := "content://downloads/my_downloads"

  /** `ContentUris.withAppendedId(Uri.parse(prefix), id)`. */
  function WithAppendedId(prefix: string, id: int): (u: string)
    ensures StartsWith(u, prefix + "/")
    ensures IsDecimal(u[|prefix| + 1..]) && ParseInt(u[|prefix| + 1..]) == id
  {
    IntRoundTrip(id);
    var u := prefix + "/" + IntToString(id);
    assert u[|prefix| + 1..] == IntToString(id);
    u
  }

  method GetPath(
    atLeastM: bool, displayName: Option<string>, storageDirectory: string, documentId: string,
    uriPath: string, longValueOf: string -> Option<int>, dataColumn: string -> Option<string>)
    returns (path: Option<string>)
    ensures atLeastM && displayName.Some? ==>
      path == Some(storageDirectory + "/Download/" + displayName.value)
    ensures atLeastM && displayName.None? && documentId == "" ==> path == Some(ND)
    ensures !atLeastM && documentId == "" && longValueOf(documentId).None? ==> path == Some(ND)
    ensures (!atLeastM || displayName.None?) && StartsWith(documentId, RawPrefix) ==>
      path == Some(documentId[|RawPrefix|..])
    ensures atLeastM && displayName.None? && documentId != "" && !StartsWith(documentId, RawPrefix) ==>
      path == match longValueOf(documentId)
              case Some(n) => dataColumn(WithAppendedId(PublicDownloads, n))
              case None => Some(StripPrefix(StripPrefix(uriPath, "/document/raw:"), RawPrefix))
    ensures !atLeastM && !StartsWith(documentId, RawPrefix) ==>
      path == match longValueOf(documentId)
              case Some(n) => dataColumn(WithAppendedId(PublicDownloads, n))
              case None => Some(ND)
  {
    if atLeastM {
      if displayName.Some? {
        var p := storageDirectory + "/Download/" + displayName.value;
        if |p| > 0 {
          return Some(p);
        }
      }
      var id := documentId;
      if |id| > 0 {
        if StartsWith(id, RawPrefix) {
          ReplaceFirstOfPrefix(id, RawPrefix, "");
          return Some(ReplaceFirst(id, RawPrefix, ""));
        }
        var prefixes := [PublicDownloads, MyDownloads];
        for i := 0 to |prefixes|
          invariant i == 0
        {
          var n := longValueOf(id);
          if n.Some? {
            return dataColumn(WithAppendedId(prefixes[i], n.value));
          }
          // the id is not a number
          return Some(StripPrefix(StripPrefix(uriPath, "/document/raw:"), RawPrefix));
        }
      }
    } else {
      var id := documentId;
      if StartsWith(id, RawPrefix) {
        ReplaceFirstOfPrefix(id, RawPrefix, "");
        return Some(ReplaceFirst(id, RawPrefix, ""));
      }
      var contentUri: Option<string> := None;
      var n := longValueOf(id);
      if n.Some? {
        contentUri := Some(WithAppendedId(PublicDownloads, n.value));
      }
      if contentUri.Some? {
        return dataColumn(contentUri.value);
      }
    }
    return Some(ND);
  }
}
