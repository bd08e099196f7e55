/** Order ids that carry the provider, so that a webhook can be routed without looking anything up. */
module OrderIds {
  import opened Text

  // An unknown provider is filed under midtrans.
  function Prefix(provider: string): string {
    var name := ToLower(provider);
    if name == "xendit" then "xnd"
    else if name == "doku" then "dku"
    else if name == "mayar" then "myr"
    else "mdt"
  }

  function FormatOrderID(provider: string, rawID: string): string {
    "pf_" + Prefix(provider) + "_" + rawID
  }

  function ExtractGatewayFromOrderID(orderID: string): (string, string) {
    var parts := Split(orderID, '_');
    if |parts| >= 3 && parts[0] == "pf" then
      var raw := Join(parts[2..], '_');
      if parts[1] == "mdt" then ("midtrans", raw)
      else if parts[1] == "xnd" then ("xendit", raw)
      else if parts[1] == "myr" then ("mayar", raw)
      else if parts[1] == "dku" then ("doku", raw)
      else ("unknown", orderID)
    else ("unknown", orderID)
  }

  const PROVIDERS := ["midtrans", "xendit", "mayar", "doku"]

  lemma LowerNames()
    ensures forall i :: 0 <= i < |PROVIDERS| ==> ToLower(PROVIDERS[i]) == PROVIDERS[i]
  {
    forall i | 0 <= i < |PROVIDERS|
      ensures ToLower(PROVIDERS[i]) == PROVIDERS[i]
    {
      LowerOfLower(PROVIDERS[i]);
    }
  }

  // Every string that splits into "pf", a prefix and the rest is that prefix and the rest put together.
  lemma PartsOf(orderID: string)
    requires |Split(orderID, '_')| >= 3 && Split(orderID, '_')[0] == "pf"
    ensures var parts := Split(orderID, '_'); orderID == "pf_" + parts[1] + "_" + Join(parts[2..], '_')
  {
    var parts := Split(orderID, '_');
    JoinOfSplit(orderID, '_');
    assert parts[1..][0] == parts[1] && parts[1..][1..] == parts[2..];
    assert Join(parts[1..], '_') == parts[1] + "_" + Join(parts[2..], '_');
    assert orderID == parts[0] + "_" + Join(parts[1..], '_');
    assert "pf" + "_" + (parts[1] + "_" + Join(parts[2..], '_')) == "pf_" + parts[1] + "_" + Join(parts[2..], '_');
  }

  predicate Paired(provider: string, prefix: string) {
    || (provider == "midtrans" && prefix == "mdt")
    || (provider == "xendit" && prefix == "xnd")
    || (provider == "mayar" && prefix == "myr")
    || (provider == "doku" && prefix == "dku")
  }

  lemma PrefixOf(provider: string)
    requires provider in PROVIDERS
    ensures Paired(provider, Prefix(provider))
  {
    LowerNames();
  }

  lemma SplitOfParts(prefix: string, rawID: string)
    requires '_' !in prefix
    ensures Split("pf_" + prefix + "_" + rawID, '_') == ["pf", prefix] + Split(rawID, '_')
  {
    SplitFirst("pf", prefix + "_" + rawID, '_');
    SplitFirst(prefix, rawID, '_');
    assert "pf" + "_" + (prefix + "_" + rawID) == "pf_" + prefix + "_" + rawID;
  }

  lemma ExtractOfPrefix(provider: string, prefix: string, rawID: string)
    requires Paired(provider, prefix)
    ensures ExtractGatewayFromOrderID("pf_" + prefix + "_" + rawID) == (provider, rawID)
  {
    SplitOfParts(prefix, rawID);
    JoinOfSplit(rawID, '_');
    var parts := Split("pf_" + prefix + "_" + rawID, '_');
    assert parts[0] == "pf" && parts[1] == prefix && parts[2..] == Split(rawID, '_');
  }

  /** Extracting from a formatted id gives back the provider and the raw id, underscores and all. */
  lemma ExtractOfFormat(provider: string, rawID: string)
    requires provider in PROVIDERS
    ensures ExtractGatewayFromOrderID(FormatOrderID(provider, rawID)) == (provider, rawID)
  {
    PrefixOf(provider);
    ExtractOfPrefix(provider, Prefix(provider), rawID);
  }

  /** Whenever extraction names a provider, formatting what it found gives back the order id. */
  lemma FormatOfExtract(orderID: string)
    requires ExtractGatewayFromOrderID(orderID).0 != "unknown"
    ensures var (provider, rawID) := ExtractGatewayFromOrderID(orderID);
            provider in PROVIDERS && FormatOrderID(provider, rawID) == orderID
  {
    PartsOf(orderID);
    var provider := ExtractGatewayFromOrderID(orderID).0;
    assert PROVIDERS[0] == "midtrans" && PROVIDERS[1] == "xendit" && PROVIDERS[2] == "mayar" && PROVIDERS[3] == "doku";
    PrefixOf(provider);
  }

  /** Extraction names a provider for exactly the ids that formatting can produce. */
  lemma NamedIffFormatted(orderID: string)
    ensures ExtractGatewayFromOrderID(orderID).0 != "unknown"
            <==> exists provider, rawID :: provider in PROVIDERS && FormatOrderID(provider, rawID) == orderID
  {
    if ExtractGatewayFromOrderID(orderID).0 != "unknown" {
      FormatOfExtract(orderID);
    }
    if provider, rawID :| provider in PROVIDERS && FormatOrderID(provider, rawID) == orderID {
      ExtractOfFormat(provider, rawID);
    }
  }
}
