/** The endpoints of V2Client, each reduced to the request it issues. */
module V2 {
  import opened Values
  import opened Requests
  import opened HashLiterals

  /** One call of a V2Client endpoint method. `options` is what `**options`
      collects: the keyword arguments the signature does not name. */
  datatype Call =
    | RegisterTransfer(userId: string, network: Value, asset: Value, transferReference: Value,
                       direction: Value, options: map<string, Value>)
    | RegisterWithdrawalAttempt(userId: string, network: Value, asset: Value, address: Value,
                                attemptIdentifier: Value, assetAmount: Value, attemptTimestamp: Value,
                                options: map<string, Value>)
    | GetTransfer(externalId: string, formatType: Value)
    | GetTransferExposures(externalId: string)
    | GetTransferAlerts(externalId: string)
    | GetTransferNetworkIdentifications(externalId: string)
    | GetWithdrawalAttempt(externalId: string, formatType: Value)
    | GetWithdrawalAttemptExposures(externalId: string)
    | GetWithdrawalAttemptAlerts(externalId: string)
    | GetWithdrawalAttemptHighRiskAddresses(externalId: string)
    | GetWithdrawalAttemptNetworkIdentifications(externalId: string)
    | GetCategories
    | GetInternalUsers
  {
    /** Ruby binds a named keyword to its parameter, so `**options` never holds one. */
    predicate WellFormed() {
      match this
      case RegisterTransfer(_, _, _, _, _, options) => options.Keys !! TRANSFER_KEYWORDS
      case RegisterWithdrawalAttempt(_, _, _, _, _, _, _, options) => options.Keys !! ATTEMPT_KEYWORDS
      case _ => true
    }

    predicate HasFormatType() {
      GetTransfer? || GetWithdrawalAttempt?
    }
  }

  const TRANSFER_KEYWORDS: set<string> :=
    {"user_id", "network", "asset", "transfer_reference", "direction"}
  const ATTEMPT_KEYWORDS: set<string> :=
    {"user_id", "network", "asset", "address", "attempt_identifier", "asset_amount", "attempt_timestamp"}

  /** The hash literal of register_transfer: four mapped keys, then `**options`. */
  function TransferLiteral(network: Value, asset: Value, transferReference: Value, direction: Value,
                           options: map<string, Value>): seq<Element>
  {
    [Pair("network", network), Pair("asset", asset), Pair("transferReference", transferReference),
     Pair("direction", direction), DoubleSplat(options)]
  }

  /** The body register_transfer posts: what its literal evaluates to. */
  function TransferBody(network: Value, asset: Value, transferReference: Value, direction: Value,
                        options: map<string, Value>): (b: map<string, Value>)
    requires options.Keys !! TRANSFER_KEYWORDS
    ensures b.Keys == {"network", "asset", "transferReference", "direction"} + options.Keys
    ensures b["network"] == network && b["asset"] == asset && b["direction"] == direction
    ensures b["transferReference"] ==
      if "transferReference" in options then options["transferReference"] else transferReference
    ensures forall k :: k in options ==> b[k] == options[k]
  {
    TransferLiteralEvaluates(network, asset, transferReference, direction, options);
    Eval(TransferLiteral(network, asset, transferReference, direction, options))
  }

  lemma TransferLiteralEvaluates(network: Value, asset: Value, transferReference: Value, direction: Value,
                                 options: map<string, Value>)
    requires options.Keys !! TRANSFER_KEYWORDS
    ensures var h := Eval(TransferLiteral(network, asset, transferReference, direction, options));
      && h.Keys == {"network", "asset", "transferReference", "direction"} + options.Keys
      && h["network"] == network && h["asset"] == asset && h["direction"] == direction
      && h["transferReference"] ==
           (if "transferReference" in options then options["transferReference"] else transferReference)
      && forall k :: k in options ==> h[k] == options[k]
  {
    var e := TransferLiteral(network, asset, transferReference, direction, options);
    EvalSnoc([], e[0]);
    assert [] + [e[0]] == e[..1];
    EvalSnoc(e[..1], e[1]);
    assert e[..1] + [e[1]] == e[..2];
    EvalSnoc(e[..2], e[2]);
    assert e[..2] + [e[2]] == e[..3];
    EvalSnoc(e[..3], e[3]);
    assert e[..3] + [e[3]] == e[..4];
    EvalSnoc(e[..4], e[4]);
    assert e[..4] + [e[4]] == e;
    assert Eval(e) == map["network" := network, "asset" := asset,
                          "transferReference" := transferReference, "direction" := direction] + options;
  }

  /** The hash literal of register_withdrawal_attempt: six mapped keys, then `**options`. */
  function AttemptLiteral(network: Value, asset: Value, address: Value, attemptIdentifier: Value,
                          assetAmount: Value, attemptTimestamp: Value,
                          options: map<string, Value>): seq<Element>
  {
    [Pair("network", network), Pair("asset", asset), Pair("address", address),
     Pair("attemptIdentifier", attemptIdentifier), Pair("assetAmount", assetAmount),
     Pair("attemptTimestamp", attemptTimestamp), DoubleSplat(options)]
  }

  /** The body register_withdrawal_attempt posts: what its literal evaluates to. */
  function AttemptBody(network: Value, asset: Value, address: Value, attemptIdentifier: Value,
                       assetAmount: Value, attemptTimestamp: Value,
                       options: map<string, Value>): (b: map<string, Value>)
    requires options.Keys !! ATTEMPT_KEYWORDS
    ensures b.Keys == {"network", "asset", "address", "attemptIdentifier", "assetAmount",
                       "attemptTimestamp"} + options.Keys
    ensures b["network"] == network && b["asset"] == asset && b["address"] == address
    ensures b["attemptIdentifier"] ==
      if "attemptIdentifier" in options then options["attemptIdentifier"] else attemptIdentifier
    ensures b["assetAmount"] ==
      if "assetAmount" in options then options["assetAmount"] else assetAmount
    ensures b["attemptTimestamp"] ==
      if "attemptTimestamp" in options then options["attemptTimestamp"] else attemptTimestamp
    ensures forall k :: k in options ==> b[k] == options[k]
  {
    AttemptLiteralEvaluates(network, asset, address, attemptIdentifier, assetAmount, attemptTimestamp, options);
    Eval(AttemptLiteral(network, asset, address, attemptIdentifier, assetAmount, attemptTimestamp, options))
  }

  /** The mapped keys of register_withdrawal_attempt, before `**options` is spread. */
  function AttemptFields(network: Value, asset: Value, address: Value, attemptIdentifier: Value,
                         assetAmount: Value, attemptTimestamp: Value): map<string, Value>
  {
    map["network" := network, "asset" := asset, "address" := address,
        "attemptIdentifier" := attemptIdentifier, "assetAmount" := assetAmount,
        "attemptTimestamp" := attemptTimestamp]
  }

  lemma AttemptLiteralEvaluates(network: Value, asset: Value, address: Value, attemptIdentifier: Value,
                                assetAmount: Value, attemptTimestamp: Value,
                                options: map<string, Value>)
    ensures Eval(AttemptLiteral(network, asset, address, attemptIdentifier, assetAmount,
                                attemptTimestamp, options))
         == AttemptFields(network, asset, address, attemptIdentifier, assetAmount, attemptTimestamp) + options
  {
    var e := AttemptLiteral(network, asset, address, attemptIdentifier, assetAmount,
                            attemptTimestamp, options);
    EvalSnoc([], e[0]);
    assert [] + [e[0]] == e[..1];
    EvalSnoc(e[..1], e[1]);
    assert e[..1] + [e[1]] == e[..2];
    EvalSnoc(e[..2], e[2]);
    assert e[..2] + [e[2]] == e[..3];
    EvalSnoc(e[..3], e[3]);
    assert e[..3] + [e[3]] == e[..4];
    EvalSnoc(e[..4], e[4]);
    assert e[..4] + [e[4]] == e[..5];
    EvalSnoc(e[..5], e[5]);
    assert e[..5] + [e[5]] == e[..6];
    EvalSnoc(e[..6], e[6]);
    assert e[..6] + [e[6]] == e;
  }

  /** `params = { format_type: format_type } if format_type`: nil, so never assigned, when absent. */
  function FormatParams(formatType: Value): (p: Option<map<string, Value>>)
    ensures p.None? <==> !Truthy(formatType)
    ensures p.Some? ==> p.value.Keys == {"format_type"} && p.value["format_type"] == formatType
  {
    if Truthy(formatType) then Some(map["format_type" := formatType]) else None
  }

  /** The request a V2Client endpoint method issues. */
  function Describe(c: Call): (r: Request)
    requires c.WellFormed()
    ensures r.root == Admin <==> c.GetInternalUsers?
    ensures c.GetInternalUsers? ==> r.path == "organization/users"
    ensures r.verb != Delete
    ensures r.verb == Post <==> c.RegisterTransfer? || c.RegisterWithdrawalAttempt?
    ensures r.verb == Get ==> r.body == None
    ensures r.verb == Post ==> r.query == None
    ensures c.HasFormatType() ==> r.query == FormatParams(c.formatType)
    ensures r.verb == Get && !c.HasFormatType() ==> r.query == Some(map[])
    ensures c.RegisterTransfer? ==>
      r.body == Some(Hash(TransferBody(c.network, c.asset, c.transferReference, c.direction, c.options)))
    ensures c.RegisterWithdrawalAttempt? ==>
      r.body == Some(Hash(AttemptBody(c.network, c.asset, c.address, c.attemptIdentifier,
                                      c.assetAmount, c.attemptTimestamp, c.options)))
    // the path templates, identifiers interpolated verbatim
    ensures c.RegisterTransfer? ==> r.path == "v2/users/" + c.userId + "/transfers"
    ensures c.RegisterWithdrawalAttempt? ==> r.path == "v2/users/" + c.userId + "/withdrawal-attempts"
    ensures c.GetTransfer? ==> r.path == "v2/transfers/" + c.externalId
    ensures c.GetTransferExposures? ==> r.path == "v2/transfers/" + c.externalId + "/exposures"
    ensures c.GetTransferAlerts? ==> r.path == "v2/transfers/" + c.externalId + "/alerts"
    ensures c.GetTransferNetworkIdentifications? ==>
      r.path == "v2/transfers/" + c.externalId + "/network-identifications"
    ensures c.GetWithdrawalAttempt? ==> r.path == "v2/withdrawal-attempts/" + c.externalId
    ensures c.GetWithdrawalAttemptExposures? ==>
      r.path == "v2/withdrawal-attempts/" + c.externalId + "/exposures"
    ensures c.GetWithdrawalAttemptAlerts? ==>
      r.path == "v2/withdrawal-attempts/" + c.externalId + "/alerts"
    ensures c.GetWithdrawalAttemptHighRiskAddresses? ==>
      r.path == "v2/withdrawal-attempts/" + c.externalId + "/high-risk-addresses"
    ensures c.GetWithdrawalAttemptNetworkIdentifications? ==>
      r.path == "v2/withdrawal-attempts/" + c.externalId + "/network-identifications"
    ensures c.GetCategories? ==> r.path == "v2/categories"
  {
    match c
    case RegisterTransfer(userId, network, asset, transferReference, direction, options) =>
      var body := TransferBody(network, asset, transferReference, direction, options);
      assert "network" in body;
      PostRequest("v2/users/" + userId + "/transfers", Hash(body))
    case RegisterWithdrawalAttempt(userId, network, asset, address, attemptIdentifier, assetAmount,
                                   attemptTimestamp, options) =>
      var body := AttemptBody(network, asset, address, attemptIdentifier, assetAmount,
                              attemptTimestamp, options);
      assert "network" in body;
      PostRequest("v2/users/" + userId + "/withdrawal-attempts", Hash(body))
    case GetTransfer(externalId, formatType) =>
      GetRequest("v2/transfers/" + externalId, FormatParams(formatType), false)
    case GetTransferExposures(externalId) =>
      GetRequest("v2/transfers/" + externalId + "/exposures", Some(map[]), false)
    case GetTransferAlerts(externalId) =>
      GetRequest("v2/transfers/" + externalId + "/alerts", Some(map[]), false)
    case GetTransferNetworkIdentifications(externalId) =>
      GetRequest("v2/transfers/" + externalId + "/network-identifications", Some(map[]), false)
    case GetWithdrawalAttempt(externalId, formatType) =>
      GetRequest("v2/withdrawal-attempts/" + externalId, FormatParams(formatType), false)
    case GetWithdrawalAttemptExposures(externalId) =>
      GetRequest("v2/withdrawal-attempts/" + externalId + "/exposures", Some(map[]), false)
    case GetWithdrawalAttemptAlerts(externalId) =>
      GetRequest("v2/withdrawal-attempts/" + externalId + "/alerts", Some(map[]), false)
    case GetWithdrawalAttemptHighRiskAddresses(externalId) =>
      GetRequest("v2/withdrawal-attempts/" + externalId + "/high-risk-addresses", Some(map[]), false)
    case GetWithdrawalAttemptNetworkIdentifications(externalId) =>
      GetRequest("v2/withdrawal-attempts/" + externalId + "/network-identifications", Some(map[]), false)
    case GetCategories =>
      GetRequest("v2/categories", Some(map[]), false)
    case GetInternalUsers =>
      GetRequest("organization/users", Some(map[]), true)
  }

  /** Every V2 path but the administrative one lies under "v2/". */
  lemma PathsAreVersioned(c: Call)
    requires c.WellFormed() && !c.GetInternalUsers?
    ensures |Describe(c).path| >= 3 && Describe(c).path[..3] == "v2/"
  {
    match c
    case RegisterTransfer(userId, _, _, _, _, _) =>
      PrefixKept("v2/users/" + userId, "/transfers");
      PrefixKept("v2/users/", userId);
    case RegisterWithdrawalAttempt(userId, _, _, _, _, _, _, _) =>
      PrefixKept("v2/users/" + userId, "/withdrawal-attempts");
      PrefixKept("v2/users/", userId);
    case GetTransfer(id, _) => PrefixKept("v2/transfers/", id);
    case GetTransferExposures(id) => TransferPrefix(id, "/exposures");
    case GetTransferAlerts(id) => TransferPrefix(id, "/alerts");
    case GetTransferNetworkIdentifications(id) => TransferPrefix(id, "/network-identifications");
    case GetWithdrawalAttempt(id, _) => PrefixKept("v2/withdrawal-attempts/", id);
    case GetWithdrawalAttemptExposures(id) => AttemptPrefix(id, "/exposures");
    case GetWithdrawalAttemptAlerts(id) => AttemptPrefix(id, "/alerts");
    case GetWithdrawalAttemptHighRiskAddresses(id) => AttemptPrefix(id, "/high-risk-addresses");
    case GetWithdrawalAttemptNetworkIdentifications(id) => AttemptPrefix(id, "/network-identifications");
    case GetCategories =>
  }

  lemma PrefixKept(a: string, b: string)
    requires |a| >= 3
    ensures |a + b| >= 3 && (a + b)[..3] == a[..3]
  {
  }

  lemma TransferPrefix(id: string, suffix: string)
    ensures ("v2/transfers/" + id + suffix)[..3] == "v2/"
  {
    PrefixKept("v2/transfers/" + id, suffix);
    PrefixKept("v2/transfers/", id);
  }

  lemma AttemptPrefix(id: string, suffix: string)
    ensures ("v2/withdrawal-attempts/" + id + suffix)[..3] == "v2/"
  {
    PrefixKept("v2/withdrawal-attempts/" + id, suffix);
    PrefixKept("v2/withdrawal-attempts/", id);
  }

  /** The received-transfer registration: exactly the four wire keys, renamed to camelCase. */
  lemma RegisterTransferScenario(userId: string)
    ensures Describe(RegisterTransfer(userId, Str("Bitcoin"), Str("BTC"), Str("R"), Str("received"), map[])).body
         == Some(Hash(map["network" := Str("Bitcoin"), "asset" := Str("BTC"),
                          "transferReference" := Str("R"), "direction" := Str("received")]))
  {
    var b := TransferBody(Str("Bitcoin"), Str("BTC"), Str("R"), Str("received"), map[]);
    var expected := map["network" := Str("Bitcoin"), "asset" := Str("BTC"),
                        "transferReference" := Str("R"), "direction" := Str("received")];
    assert b.Keys == expected.Keys;
    assert b == expected;
  }

  /** A camelCase extra shares its key with a mapped field and, spread last, replaces it. */
  lemma ExtraOverridesMappedField(network: Value, asset: Value, reference: Value, direction: Value, extra: Value)
    ensures TransferBody(network, asset, reference, direction,
                         map["transferReference" := extra])["transferReference"] == extra
  {
  }
}
