/** The objects of the library: BaseClient's memoised connections and the
    facade Client's memoised V1 and V2 sub-clients. */
module Clients {
  import opened Values
  import opened Requests
  import opened Responses
  import V1
  import V2

  /** What a Faraday connection is built from: its root URL, the three
      headers, the adapter and the optional test stubs. */
  datatype ConnectionConfig = ConnectionConfig(
    url: string,
    headers: map<string, string>,
    adapter: string,
    stubs: Option<string>)

  /** A Faraday::Connection; it does not change after it is built. */
  class Connection {
    const config: ConnectionConfig

    constructor (config: ConnectionConfig)
      ensures this.config == config
    {
      this.config := config;
    }
  }

  /** Which subclass of BaseClient an object is. */
  datatype Generation = V1Api | V2Api

  /** The transport: sends one request over a connection and returns status and body. */
  type Transport = (ConnectionConfig, Request) -> Response

  /** The state shared by V1Client and V2Client (both subclasses of BaseClient). */
  class BaseClient {
    const apiKey: string
    const adapter: string
    const stubs: Option<string>
    const generation: Generation
    var client: Connection?        // @client
    var adminClient: Connection?   // @admin_client

    /** The connection for a root, as `client` / `admin_client` configure it. */
    function Config(root: Root): (c: ConnectionConfig)
      ensures c.url == RootUrl(root)
      ensures c.headers == Headers(apiKey)
      ensures c.adapter == adapter && c.stubs == stubs
    {
      ConnectionConfig(RootUrl(root), Headers(apiKey), adapter, stubs)
    }

    /** A memoised connection is configured for its root with this client's credential. */
    ghost predicate Valid()
      reads this
    {
      && (client != null ==> client.config == Config(Base))
      && (adminClient != null ==> adminClient.config == Config(Admin))
    }

    constructor (apiKey: string, adapter: string, stubs: Option<string>, generation: Generation)
      ensures Valid()
      ensures this.apiKey == apiKey && this.adapter == adapter && this.stubs == stubs
      ensures this.generation == generation
      ensures client == null && adminClient == null
    {
      this.apiKey := apiKey;
      this.adapter := adapter;
      this.stubs := stubs;
      this.generation := generation;
      client := null;
      adminClient := null;
    }

    /** `@client ||= Faraday.new(url: BASE_URL) ...` */
    method Client() returns (c: Connection)
      requires Valid()
      modifies this`client
      ensures Valid()
      ensures client == c && c.config == Config(Base)
      ensures old(client) != null ==> c == old(client)
      ensures old(client) == null ==> fresh(c)
    {
      if client == null {
        client := new Connection(Config(Base));
      }
      c := client;
    }

    /** `@admin_client ||= Faraday.new(url: ADMIN_URL) ...` */
    method AdminClient() returns (c: Connection)
      requires Valid()
      modifies this`adminClient
      ensures Valid()
      ensures adminClient == c && c.config == Config(Admin)
      ensures old(adminClient) != null ==> c == old(adminClient)
      ensures old(adminClient) == null ==> fresh(c)
    {
      if adminClient == null {
        adminClient := new Connection(Config(Admin));
      }
      c := adminClient;
    }

    /** The sending half of get_request, post_request and delete_request: the
        request goes over the connection for its root and handle_response
        classifies what comes back. Only the connection used is memoised. */
    method Perform(req: Request, transport: Transport, parse: string -> Option<Value>) returns (o: Outcome)
      requires Valid()
      modifies this`client, this`adminClient
      ensures Valid()
      ensures o == HandleResponse(transport(Config(req.root), req), parse)
      ensures req.root == Base ==>
        client != null && adminClient == old(adminClient) &&
        (old(client) != null ==> client == old(client))
      ensures req.root == Admin ==>
        adminClient != null && client == old(client) &&
        (old(adminClient) != null ==> adminClient == old(adminClient))
      ensures old(client) == null && client != null ==> fresh(client)
      ensures old(adminClient) == null && adminClient != null ==> fresh(adminClient)
    {
      var conn;
      if req.root == Admin {
        conn := AdminClient();
      } else {
        conn := Client();
      }
      o := HandleResponse(transport(conn.config, req), parse);
    }

    /** A V1Client endpoint method: the request it describes, sent and classified.
        V1 never uses the administrative connection. */
    method CallV1(c: V1.Call, transport: Transport, parse: string -> Option<Value>) returns (o: Outcome)
      requires Valid() && generation == V1Api && c.WellFormed()
      modifies this`client, this`adminClient
      ensures Valid()
      ensures o == HandleResponse(transport(Config(Base), V1.Describe(c)), parse)
      ensures client != null && adminClient == old(adminClient)
      ensures old(client) != null ==> client == old(client)
      ensures old(client) == null ==> fresh(client)
    {
      o := Perform(V1.Describe(c), transport, parse);
    }

    /** A V2Client endpoint method: the request it describes, sent and classified. */
    method CallV2(c: V2.Call, transport: Transport, parse: string -> Option<Value>) returns (o: Outcome)
      requires Valid() && generation == V2Api && c.WellFormed()
      modifies this`client, this`adminClient
      ensures Valid()
      ensures o == HandleResponse(transport(Config(V2.Describe(c).root), V2.Describe(c)), parse)
      ensures c.GetInternalUsers? ==> adminClient != null && client == old(client)
      ensures !c.GetInternalUsers? ==> client != null && adminClient == old(adminClient)
      ensures old(client) != null ==> client == old(client)
      ensures old(adminClient) != null ==> adminClient == old(adminClient)
      ensures old(client) == null && client != null ==> fresh(client)
      ensures old(adminClient) == null && adminClient != null ==> fresh(adminClient)
    {
      o := Perform(V2.Describe(c), transport, parse);
    }
  }

  /** The facade Chainalysis::Client. */
  class Client {
    const apiKey: string
    const adapter: string
    const stubs: Option<string>
    var v1: BaseClient?   // @v1
    var v2: BaseClient?   // @v2

    /** Memoised sub-clients are of the right generation and share the facade's configuration. */
    ghost predicate Valid()
      reads this, v1, v2
    {
      && (v1 != null ==> Shares(v1) && v1.generation == V1Api && v1.Valid())
      && (v2 != null ==> Shares(v2) && v2.generation == V2Api && v2.Valid())
    }

    predicate Shares(sub: BaseClient) {
      sub.apiKey == apiKey && sub.adapter == adapter && sub.stubs == stubs
    }

    constructor (apiKey: string, adapter: string, stubs: Option<string>)
      ensures Valid()
      ensures this.apiKey == apiKey && this.adapter == adapter && this.stubs == stubs
      ensures v1 == null && v2 == null
    {
      this.apiKey := apiKey;
      this.adapter := adapter;
      this.stubs := stubs;
      v1 := null;
      v2 := null;
    }

    /** `Client.new(api_key: k)`: the adapter is Faraday.default_adapter as read
        at construction (passed in), and there are no stubs. */
    constructor WithDefaults(apiKey: string, defaultAdapter: string)
      ensures Valid()
      ensures this.apiKey == apiKey && adapter == defaultAdapter && stubs == None
      ensures v1 == null && v2 == null
    {
      this.apiKey := apiKey;
      adapter := defaultAdapter;
      stubs := None;
      v1 := null;
      v2 := null;
    }

    /** `@v1 ||= V1Client.new(api_key: api_key, adapter: adapter, stubs: @stubs)` */
    method V1() returns (c: BaseClient)
      requires Valid()
      modifies this`v1
      ensures Valid()
      ensures v1 == c && Shares(c) && c.generation == V1Api && c.Valid()
      ensures old(v1) != null ==> c == old(v1)
      ensures old(v1) == null ==> fresh(c) && c.Valid() && c.client == null && c.adminClient == null
    {
      if v1 == null {
        v1 := new BaseClient(apiKey, adapter, stubs, V1Api);
      }
      c := v1;
    }

    /** `@v2 ||= V2Client.new(api_key: api_key, adapter: adapter, stubs: @stubs)` */
    method V2() returns (c: BaseClient)
      requires Valid()
      modifies this`v2
      ensures Valid()
      ensures v2 == c && Shares(c) && c.generation == V2Api && c.Valid()
      ensures old(v2) != null ==> c == old(v2)
      ensures old(v2) == null ==> fresh(c) && c.Valid() && c.client == null && c.adminClient == null
    {
      if v2 == null {
        v2 := new BaseClient(apiKey, adapter, stubs, V2Api);
      }
      c := v2;
    }
  }

  /** The memoised V1 client returned by a later access of `v1` can still issue calls. */
  method MemoisedClientIsUsable(facade: Client, c: V1.Call, transport: Transport,
                                parse: string -> Option<Value>) returns (o: Outcome)
    requires facade.Valid() && facade.v1 != null && c.WellFormed()
    modifies facade, facade.v1
    ensures o == HandleResponse(transport(ConnectionConfig(BASE_URL, Headers(facade.apiKey),
                                                           facade.adapter, facade.stubs),
                                          V1.Describe(c)), parse)
  {
    var sub := facade.V1();
    o := sub.CallV1(c, transport, parse);
  }

  /** Two V2 calls on the base root travel over one connection, built by the first. */
  method ConnectionsAreReused(b: BaseClient, c1: V2.Call, c2: V2.Call, transport: Transport,
                              parse: string -> Option<Value>) returns (o1: Outcome, o2: Outcome)
    requires b.Valid() && b.generation == V2Api && b.client == null
    requires c1.WellFormed() && c2.WellFormed() && !c1.GetInternalUsers? && !c2.GetInternalUsers?
    modifies b
    ensures b.client != null && fresh(b.client) && b.adminClient == old(b.adminClient)
    ensures o2 == HandleResponse(transport(b.client.config, V2.Describe(c2)), parse)
  {
    o1 := b.CallV2(c1, transport, parse);
    var conn := b.client;
    o2 := b.CallV2(c2, transport, parse);
    assert b.client == conn;
  }

  /** Two accesses of `v1` (or `v2`) yield one object, and the two are distinct. */
  method RepeatedAccessIsMemoised(facade: Client) returns (first: BaseClient, second: BaseClient, other: BaseClient)
    requires facade.Valid() && facade.v1 == null && facade.v2 == null
    modifies facade
    ensures first == second && first != other
    ensures first.generation == V1Api && other.generation == V2Api
    ensures first.apiKey == facade.apiKey && other.apiKey == facade.apiKey
  {
    first := facade.V1();
    other := facade.V2();
    second := facade.V1();
  }
}
