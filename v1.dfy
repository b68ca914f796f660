/** The endpoints of V1Client, each reduced to the request it issues. */
module V1 {
  import opened Values
  import opened Requests
  import Paths

  /** One call of a V1Client endpoint method, with its keyword arguments.
      Identifiers are the strings interpolated into the path. */
  datatype Call =
    | RegisterReceivedTransfer(userId: string, transfers: Value)
    | GetReceivedTransfers(userId: string, limit: Value, offset: Value)
    | RegisterSentTransfer(userId: string, transfers: Value)
    | GetSentTransfers(userId: string, limit: Value, offset: Value)
    | RegisterWithdrawalAddresses(userId: string, addresses: Value)
    | GetWithdrawalAddresses(userId: string, limit: Value, offset: Value)
    | DeleteWithdrawalAddress(userId: string, asset: string, address: string)
    | RegisterDepositAddresses(userId: string, addresses: Value)
    | GetDepositAddresses(userId: string, limit: Value, offset: Value)
    | DeleteDepositAddress(userId: string, asset: string, address: string)
    | GetAlerts(params: Option<map<string, Value>>)
    | AssignAlert(alertIdentifier: string, alertAssignee: Value)
    | UpdateAlertStatus(alertIdentifier: string, status: Value, comment: Value)
    | GetAlertActivity(alertIdentifier: string)
    | GetUsers(limit: Value, offset: Value)
    | GetUser(userId: string)
    | RenameUsers(renames: Value)
  {
    /** The five list endpoints that take `limit:` and `offset:`. */
    predicate IsPaged() {
      GetReceivedTransfers? || GetSentTransfers? || GetWithdrawalAddresses? ||
      GetDepositAddresses? || GetUsers?
    }

    /** The endpoints that hand a caller-supplied body straight to post_request. */
    predicate IsPassThrough() {
      RegisterReceivedTransfer? || RegisterSentTransfer? || RegisterWithdrawalAddresses? ||
      RegisterDepositAddresses? || RenameUsers?
    }

    /** The body a pass-through endpoint posts. */
    function Payload(): Value
      requires IsPassThrough()
    {
      match this
      case RegisterReceivedTransfer(_, transfers) => transfers
      case RegisterSentTransfer(_, transfers) => transfers
      case RegisterWithdrawalAddresses(_, addresses) => addresses
      case RegisterDepositAddresses(_, addresses) => addresses
      case RenameUsers(renames) => renames
    }

    /** post_request calls `empty?` on a pass-through body, so it must be a string, array or hash. */
    predicate WellFormed() {
      IsPassThrough() ==> IsCollection(Payload())
    }
  }

  /** The keys and values a page query is promised to have. */
  predicate IsPageQuery(q: map<string, Value>, limit: Value, offset: Value) {
    && q.Keys <= {"limit", "offset"}
    && ("limit" in q <==> Truthy(limit))
    && ("offset" in q <==> Truthy(offset))
    && ("limit" in q ==> q["limit"] == limit)
    && ("offset" in q ==> q["offset"] == offset)
  }

  /** The `params` hash a list endpoint builds: `limit` and `offset`, each only when truthy. */
  function PageQuery(limit: Value, offset: Value): (q: map<string, Value>)
    ensures IsPageQuery(q, limit, offset)
  {
    var withLimit := if Truthy(limit) then map["limit" := limit] else map[];
    if Truthy(offset) then withLimit["offset" := offset] else withLimit
  }

  /** The list endpoints' `params = {}; params[:limit] = limit if limit; params[:offset] = offset if offset`. */
  method BuildPageParams(limit: Value, offset: Value) returns (params: map<string, Value>)
    ensures params == PageQuery(limit, offset)
  {
    params := map[];
    if Truthy(limit) {
      params := params["limit" := limit];
    }
    if Truthy(offset) {
      params := params["offset" := offset];
    }
  }

  /** Those promises pin the query down: PageQuery is the only hash that keeps them. */
  lemma PageQueryIsDetermined(q: map<string, Value>, limit: Value, offset: Value)
    requires IsPageQuery(q, limit, offset)
    ensures q == PageQuery(limit, offset)
  {
  }

  /** A limit or offset of 0 is truthy in Ruby and is sent; only nil and false are dropped. */
  lemma ZeroLimitIsSent(offset: Value)
    ensures "limit" in PageQuery(Int(0), offset) && PageQuery(Int(0), offset)["limit"] == Int(0)
    ensures "limit" !in PageQuery(Nil, offset) && "limit" !in PageQuery(Bool(false), offset)
  {
  }

  /** update_alert_status's body: `status` always, `comment` only when truthy. */
  function AlertStatusBody(status: Value, comment: Value): (b: map<string, Value>)
    ensures b.Keys <= {"status", "comment"}
    ensures "status" in b && b["status"] == status
    ensures "comment" in b <==> Truthy(comment)
    ensures "comment" in b ==> b["comment"] == comment
  {
    var body := map["status" := status];
    if Truthy(comment) then body["comment" := comment] else body
  }

  /** `body = { status: status }; body[:comment] = comment if comment`. */
  method BuildAlertStatusBody(status: Value, comment: Value) returns (body: map<string, Value>)
    ensures body == AlertStatusBody(status, comment)
  {
    body := map["status" := status];
    if Truthy(comment) {
      body := body["comment" := comment];
    }
  }

  function WithdrawalAddressPath(userId: string, asset: string, address: string): string {
    "v1/users/" + userId + "/withdrawaladdresses/" + asset + "/" + address
  }

  function DepositAddressPath(userId: string, asset: string, address: string): string {
    "v1/users/" + userId + "/depositaddresses/" + asset + "/" + address
  }

  /** The request a V1Client endpoint method issues. */
  function Describe(c: Call): (r: Request)
    requires c.WellFormed()
    ensures r.root == Base
    ensures |r.path| >= 3 && r.path[..3] == "v1/"
    ensures r.verb == Get <==> c.IsPaged() || c.GetAlerts? || c.GetAlertActivity? || c.GetUser?
    ensures r.verb == Delete <==> c.DeleteWithdrawalAddress? || c.DeleteDepositAddress?
    ensures r.verb == Get ==> r.body == None
    ensures r.verb != Get ==> r.query == None
    ensures r.verb == Delete ==> r.body == None
    ensures c.IsPaged() ==> r.query == Some(PageQuery(c.limit, c.offset))
    ensures c.GetAlerts? ==> r.query == c.params
    ensures c.GetAlertActivity? || c.GetUser? ==> r.query == Some(map[])
    ensures c.IsPassThrough() ==>
      r.verb == Post && (r.body == None <==> IsEmpty(c.Payload())) &&
      (r.body.Some? ==> r.body.value == c.Payload())
    ensures c.AssignAlert? ==>
      r.verb == Post && r.body == Some(Hash(map["alertAssignee" := c.alertAssignee]))
    ensures c.UpdateAlertStatus? ==>
      r.verb == Post && r.body == Some(Hash(AlertStatusBody(c.status, c.comment)))
    // the path templates, identifiers interpolated verbatim
    ensures c.RegisterReceivedTransfer? || c.GetReceivedTransfers? ==>
      r.path == "v1/users/" + c.userId + "/transfers/received"
    ensures c.RegisterSentTransfer? || c.GetSentTransfers? ==>
      r.path == "v1/users/" + c.userId + "/transfers/sent"
    ensures c.RegisterWithdrawalAddresses? || c.GetWithdrawalAddresses? ==>
      r.path == "v1/users/" + c.userId + "/withdrawaladdresses"
    ensures c.DeleteWithdrawalAddress? ==> r.path == WithdrawalAddressPath(c.userId, c.asset, c.address)
    ensures c.RegisterDepositAddresses? || c.GetDepositAddresses? ==>
      r.path == "v1/users/" + c.userId + "/depositaddresses"
    ensures c.DeleteDepositAddress? ==> r.path == DepositAddressPath(c.userId, c.asset, c.address)
    ensures c.GetAlerts? ==> r.path == "v1/alerts/"
    ensures c.AssignAlert? ==> r.path == "v1/alerts/" + c.alertIdentifier + "/assignment"
    ensures c.UpdateAlertStatus? ==> r.path == "v1/alerts/" + c.alertIdentifier + "/statuses"
    ensures c.GetAlertActivity? ==> r.path == "v1/alerts/" + c.alertIdentifier + "/activity"
    ensures c.GetUsers? ==> r.path == "v1/users/"
    ensures c.GetUser? ==> r.path == "v1/users/" + c.userId
    ensures c.RenameUsers? ==> r.path == "v1/users/rename"
  {
    match c
    case RegisterReceivedTransfer(userId, transfers) =>
      PostRequest("v1/users/" + userId + "/transfers/received", transfers)
    case GetReceivedTransfers(userId, limit, offset) =>
      GetRequest("v1/users/" + userId + "/transfers/received", Some(PageQuery(limit, offset)), false)
    case RegisterSentTransfer(userId, transfers) =>
      PostRequest("v1/users/" + userId + "/transfers/sent", transfers)
    case GetSentTransfers(userId, limit, offset) =>
      GetRequest("v1/users/" + userId + "/transfers/sent", Some(PageQuery(limit, offset)), false)
    case RegisterWithdrawalAddresses(userId, addresses) =>
      PostRequest("v1/users/" + userId + "/withdrawaladdresses", addresses)
    case GetWithdrawalAddresses(userId, limit, offset) =>
      GetRequest("v1/users/" + userId + "/withdrawaladdresses", Some(PageQuery(limit, offset)), false)
    case DeleteWithdrawalAddress(userId, asset, address) =>
      DeleteRequest(WithdrawalAddressPath(userId, asset, address))
    case RegisterDepositAddresses(userId, addresses) =>
      PostRequest("v1/users/" + userId + "/depositaddresses", addresses)
    case GetDepositAddresses(userId, limit, offset) =>
      GetRequest("v1/users/" + userId + "/depositaddresses", Some(PageQuery(limit, offset)), false)
    case DeleteDepositAddress(userId, asset, address) =>
      DeleteRequest(DepositAddressPath(userId, asset, address))
    case GetAlerts(params) =>
      GetRequest("v1/alerts/", params, false)
    case AssignAlert(alertIdentifier, alertAssignee) =>
      PostRequest("v1/alerts/" + alertIdentifier + "/assignment",
                  Hash(map["alertAssignee" := alertAssignee]))
    case UpdateAlertStatus(alertIdentifier, status, comment) =>
      PostRequest("v1/alerts/" + alertIdentifier + "/statuses", Hash(AlertStatusBody(status, comment)))
    case GetAlertActivity(alertIdentifier) =>
      GetRequest("v1/alerts/" + alertIdentifier + "/activity", Some(map[]), false)
    case GetUsers(limit, offset) =>
      GetRequest("v1/users/", Some(PageQuery(limit, offset)), false)
    case GetUser(userId) =>
      GetRequest("v1/users/" + userId, Some(map[]), false)
    case RenameUsers(renames) =>
      PostRequest("v1/users/rename", renames)
  }

  /** With slash-free identifiers, each one is exactly one segment of the address path. */
  lemma WithdrawalAddressPathSegments(userId: string, asset: string, address: string)
    requires Paths.SlashFree(userId) && Paths.SlashFree(asset) && Paths.SlashFree(address)
    ensures Paths.Segments(WithdrawalAddressPath(userId, asset, address))
         == ["v1", "users", userId, "withdrawaladdresses", asset, address]
  {
    var parts := ["v1", "users", userId, "withdrawaladdresses", asset, address];
    assert Paths.Join(parts[5..]) == address;
    assert Paths.Join(parts[4..]) == asset + "/" + address;
    assert Paths.Join(parts[3..]) == "withdrawaladdresses/" + asset + "/" + address;
    assert Paths.Join(parts[2..]) == userId + "/withdrawaladdresses/" + asset + "/" + address;
    assert Paths.Join(parts) == WithdrawalAddressPath(userId, asset, address);
    Paths.SegmentsOfJoin(parts);
  }

  /** Hence slash-free identifiers are recovered from the path: distinct ones give distinct requests. */
  lemma WithdrawalAddressPathInjective(u1: string, a1: string, x1: string, u2: string, a2: string, x2: string)
    requires Paths.SlashFree(u1) && Paths.SlashFree(a1) && Paths.SlashFree(x1)
    requires Paths.SlashFree(u2) && Paths.SlashFree(a2) && Paths.SlashFree(x2)
    requires WithdrawalAddressPath(u1, a1, x1) == WithdrawalAddressPath(u2, a2, x2)
    ensures u1 == u2 && a1 == a2 && x1 == x2
  {
    WithdrawalAddressPathSegments(u1, a1, x1);
    WithdrawalAddressPathSegments(u2, a2, x2);
    var s1 := ["v1", "users", u1, "withdrawaladdresses", a1, x1];
    var s2 := ["v1", "users", u2, "withdrawaladdresses", a2, x2];
    assert s1 == s2;
    assert s1[2] == s2[2] && s1[4] == s2[4] && s1[5] == s2[5];
  }

  /** The deposit address path: each slash-free identifier is exactly one segment. */
  lemma DepositAddressPathSegments(userId: string, asset: string, address: string)
    requires Paths.SlashFree(userId) && Paths.SlashFree(asset) && Paths.SlashFree(address)
    ensures Paths.Segments(DepositAddressPath(userId, asset, address))
         == ["v1", "users", userId, "depositaddresses", asset, address]
  {
    var parts := ["v1", "users", userId, "depositaddresses", asset, address];
    assert Paths.Join(parts[5..]) == address;
    assert Paths.Join(parts[4..]) == asset + "/" + address;
    assert Paths.Join(parts[3..]) == "depositaddresses/" + asset + "/" + address;
    assert Paths.Join(parts[2..]) == userId + "/depositaddresses/" + asset + "/" + address;
    assert Paths.Join(parts) == DepositAddressPath(userId, asset, address);
    Paths.SegmentsOfJoin(parts);
  }

  lemma DepositAddressPathInjective(u1: string, a1: string, x1: string, u2: string, a2: string, x2: string)
    requires Paths.SlashFree(u1) && Paths.SlashFree(a1) && Paths.SlashFree(x1)
    requires Paths.SlashFree(u2) && Paths.SlashFree(a2) && Paths.SlashFree(x2)
    requires DepositAddressPath(u1, a1, x1) == DepositAddressPath(u2, a2, x2)
    ensures u1 == u2 && a1 == a2 && x1 == x2
  {
    DepositAddressPathSegments(u1, a1, x1);
    DepositAddressPathSegments(u2, a2, x2);
    var s1 := ["v1", "users", u1, "depositaddresses", a1, x1];
    var s2 := ["v1", "users", u2, "depositaddresses", a2, x2];
    assert s1 == s2;
    assert s1[2] == s2[2] && s1[4] == s2[4] && s1[5] == s2[5];
  }

  /** Without escaping, a '/' inside an identifier moves segments: two different
      (asset, address) pairs issue the same DELETE. */
  lemma UnescapedIdentifiersCollide()
    ensures Describe(DeleteWithdrawalAddress("u", "BTC/x", "y"))
         == Describe(DeleteWithdrawalAddress("u", "BTC", "x/y"))
  {
  }
}
