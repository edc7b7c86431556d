/**
  HTTP connection pooling for LLM clients: one shared client per provider and
  base URL, configured with provider-specific authentication headers and
  timeouts, plus the Server-Sent Events line filter of the streaming call and
  the request counters.

  A client is an opaque handle; only the configuration it was built with and
  whether it has been closed are modelled. Timeouts are seconds as `real`.
*/
module ConnectionPool {
  import opened Common

  /** The URL part of a pool key: `base_url or 'default'`. */
  function EffectiveUrl(baseUrl: Option<string>): (u: string)
    ensures baseUrl.None? || baseUrl.value == "" ==> u == "default"
    ensures baseUrl.Some? && baseUrl.value != "" ==> u == baseUrl.value
  {
    if baseUrl.Some? && baseUrl.value != "" then baseUrl.value else "default"
  }

  /** The pool key of a provider and base URL. */
  function ClientKey(provider: string, baseUrl: Option<string>): (k: string)
    ensures StartsWith(k, provider + ":")
    ensures k[|provider| + 1..] == EffectiveUrl(baseUrl)
  {
    provider + ":" + EffectiveUrl(baseUrl)
  }

  /** The position of the first ':' in a key is the provider's length, when the
      provider has no ':' of its own. */
  lemma {:induction false} FirstColon(provider: string, rest: string, i: nat)
    requires ':' !in provider && i <= |provider|
    ensures forall j :: i <= j < |provider| ==> (provider + ":" + rest)[j] != ':'
    ensures (provider + ":" + rest)[|provider|] == ':'
    decreases |provider| - i
  {
    var key := provider + ":" + rest;
    if i < |provider| {
      FirstColon(provider, rest, i + 1);
      assert key[i] == provider[i];
    }
  }

  /** For providers without ':', two requests share a client exactly when they
      name the same provider and the same effective URL; in particular an absent
      and an empty base URL share one. */
  lemma ClientKeyInjective(p1: string, b1: Option<string>, p2: string, b2: Option<string>)
    requires ':' !in p1 && ':' !in p2
    ensures ClientKey(p1, b1) == ClientKey(p2, b2) <==> p1 == p2 && EffectiveUrl(b1) == EffectiveUrl(b2)
  {
    var k1, k2 := ClientKey(p1, b1), ClientKey(p2, b2);
    if k1 == k2 {
      FirstColon(p1, EffectiveUrl(b1), 0);
      FirstColon(p2, EffectiveUrl(b2), 0);
      assert p1 == k1[..|p1|] && p2 == k2[..|p2|];
      assert EffectiveUrl(b1) == k1[|p1| + 1..] && EffectiveUrl(b2) == k2[|p2| + 1..];
    }
  }

  /** Python truthiness of the API key: present and non-empty. */
  predicate HasKey(apiKey: Option<string>)
  {
    apiKey.Some? && apiKey.value != ""
  }

  /** The bearer credential of section 2.1 of RFC 6750. */
  function Bearer(token: string): string
  {
    "Bearer " + token
  }

  /** Reads the token back out of an `Authorization` value. */
  function BearerToken(value: string): Option<string>
  {
    if StartsWith(value, "Bearer ") then Some(value[7..]) else None
  }

  lemma BearerRoundTrip(token: string)
    ensures BearerToken(Bearer(token)) == Some(token)
  {
    assert Bearer(token)[..7] == "Bearer ";
    assert Bearer(token)[7..] == token;
  }

  /** The default headers of a new client. */
  function AuthHeaders(provider: string, apiKey: Option<string>): (h: map<string, string>)
    ensures !HasKey(apiKey) ==> h == map[]
    ensures HasKey(apiKey) && (provider == "openai" || provider == "google") ==>
      h.Keys == {"Authorization"} && BearerToken(h["Authorization"]) == apiKey
    ensures HasKey(apiKey) && provider == "anthropic" ==>
      h.Keys == {"x-api-key", "anthropic-version"}
      && h["x-api-key"] == apiKey.value && h["anthropic-version"] == "2023-06-01"
    ensures provider !in {"openai", "anthropic", "google"} ==> h == map[]
  {
    if !HasKey(apiKey) then map[]
    else if provider == "openai" || provider == "google" then
      BearerRoundTrip(apiKey.value);
      map["Authorization" := Bearer(apiKey.value)]
    else if provider == "anthropic" then
      map["x-api-key" := apiKey.value, "anthropic-version" := "2023-06-01"]
    else map[]
  }

  /** `httpx.Timeout`: connect, read, write and pool timeouts in seconds. */
  datatype Timeout = Timeout(connect: real, read: real, write: real, pool: real)

  /** `httpx.Limits`. */
  datatype Limits = Limits(maxConnections: int, maxKeepaliveConnections: int, keepaliveExpiry: real)

  /** The timeout profile of a provider: a longer read timeout for the three known
      providers, the caller's uniform timeout for any other. */
  function TimeoutFor(provider: string, timeout: real): (t: Timeout)
    ensures provider in {"openai", "anthropic", "google"} ==>
      t.connect == 10.0 && t.write == 10.0 && t.pool == 5.0
    ensures provider == "openai" ==> t.read == 60.0
    ensures provider == "anthropic" ==> t.read == 120.0
    ensures provider == "google" ==> t.read == 90.0
    ensures provider !in {"openai", "anthropic", "google"} ==> t == Timeout(timeout, timeout, timeout, timeout)
  {
    if provider == "openai" then Timeout(10.0, 60.0, 10.0, 5.0)
    else if provider == "anthropic" then Timeout(10.0, 120.0, 10.0, 5.0)
    else if provider == "google" then Timeout(10.0, 90.0, 10.0, 5.0)
    else Timeout(timeout, timeout, timeout, timeout)
  }

  /** The caller's timeout matters only for providers outside the table. */
  lemma TimeoutIgnoresCallerForKnownProviders(provider: string, t1: real, t2: real)
    ensures TimeoutFor(provider, t1) != TimeoutFor(provider, t2) ==>
      provider !in {"openai", "anthropic", "google"} && t1 != t2
  {
  }

  /** A pooled HTTP client: the configuration it was built with (as requested of
      `httpx.AsyncClient`, HTTP/2 and the transport's 3 retries included) and
      whether it has been closed. */
  class Client {
    ghost const provider: string
    const baseUrl: Option<string>
    const headers: map<string, string>
    const timeout: Timeout
    const limits: Limits
    const http2: bool
    const retries: int
    var closed: bool

    constructor (provider: string, baseUrl: Option<string>, headers: map<string, string>, timeout: Timeout, limits: Limits)
      ensures this.provider == provider && this.baseUrl == baseUrl && this.headers == headers
      ensures this.timeout == timeout && this.limits == limits
      ensures http2 && retries == 3 && !closed
    {
      this.provider := provider;
      this.baseUrl := baseUrl;
      this.headers := headers;
      this.timeout := timeout;
      this.limits := limits;
      http2 := true;
      retries := 3;
      closed := false;
    }
  }

  /** The process-wide registry of pooled clients. */
  class ConnectionPoolManager {
    var clients: map<string, Client>

    /** Every client is stored under the key of the provider and URL it was built for. */
    ghost predicate Valid()
      reads this
    {
      forall k :: k in clients ==> k == ClientKey(clients[k].provider, clients[k].baseUrl)
    }

    constructor ()
      ensures Valid() && clients == map[]
    {
      clients := map[];
    }

    /** `get_client`: the client stored under the key is returned whatever the
        other arguments; a client is built only when the key is absent, with the
        provider's headers, timeout profile and the requested limits.
        `constructs` says whether building the `httpx.AsyncClient` returns;
        when it raises (with `http2=True` and no `h2` package, say) the
        exception reaches the caller, `r` is `None`, and nothing is stored. */
    method GetClient(provider: string, baseUrl: Option<string>, apiKey: Option<string>, timeout: real,
      maxConnections: int, maxKeepaliveConnections: int, constructs: bool) returns (r: Option<Client>)
      requires Valid()
      modifies this
      ensures Valid()
      ensures var key := ClientKey(provider, baseUrl);
        && (r.Some? <==> key in old(clients) || constructs)
        && (r.Some? ==> key in clients && r.value == clients[key])
        && (key in old(clients) ==> r == Some(old(clients)[key]) && clients == old(clients))
        && (key !in old(clients) && !constructs ==> r == None && unchanged(this))
        && (key !in old(clients) && constructs ==>
              && fresh(r.value) && clients == old(clients)[key := r.value] && !r.value.closed
              && r.value.provider == provider && r.value.baseUrl == baseUrl
              && r.value.headers == AuthHeaders(provider, apiKey)
              && r.value.timeout == TimeoutFor(provider, timeout)
              && r.value.limits == Limits(maxConnections, maxKeepaliveConnections, 30.0)
              && r.value.http2 && r.value.retries == 3)
    {
      var key := ClientKey(provider, baseUrl);
      if key !in clients {
        if !constructs {
          return None;
        }
        var headers := AuthHeaders(provider, apiKey);
        var timeoutConfig := TimeoutFor(provider, timeout);
        var client := new Client(provider, baseUrl, headers, timeoutConfig, Limits(maxConnections, maxKeepaliveConnections, 30.0));
        clients := clients[key := client];
      }
      r := Some(clients[key]);
    }

    /** `close_all`: every registered client is closed and the registry is emptied. */
    method CloseAll()
      requires Valid()
      modifies this, clients.Values
      ensures Valid()
      ensures clients == map[]
      ensures forall c :: c in old(clients).Values ==> c.closed
    {
      var pending := clients.Values;
      while pending != {}
        invariant pending <= old(clients).Values && clients == old(clients)
        invariant forall c :: c in old(clients).Values && c !in pending ==> c.closed
        decreases pending
      {
        var c :| c in pending;
        c.closed := true;
        pending := pending - {c};
      }
      clients := map[];
    }
  }

  /** The OpenAI wrapper: its pooled client is fetched once and then kept. */
  class PooledOpenAIClient {
    const apiKey: string
    const baseUrl: string
    var client: Client?

    constructor (apiKey: string, baseUrl: Option<string>)
      ensures this.apiKey == apiKey && client == null
      ensures this.baseUrl == (if baseUrl.Some? && baseUrl.value != "" then baseUrl.value else "https://api.openai.com/v1")
    {
      this.apiKey := apiKey;
      this.baseUrl := if baseUrl.Some? && baseUrl.value != "" then baseUrl.value else "https://api.openai.com/v1";
      client := null;
    }

    /** `_get_client`: the first call asks the pool for an "openai" client with 15
        connections and 8 keep-alive ones; later calls reuse it without asking.
        When the pool's construction raises, `c` is null, the exception reaches
        the caller, and the wrapper and pool stay as they were. */
    method GetPooledClient(pool: ConnectionPoolManager, constructs: bool) returns (c: Client?)
      requires pool.Valid()
      modifies this, pool
      ensures pool.Valid() && c == client
      ensures old(client) != null ==> c == old(client) && pool.clients == old(pool.clients)
      ensures old(client) == null ==>
        var key := ClientKey("openai", Some(baseUrl));
        && (c != null <==> key in old(pool.clients) || constructs)
        && (c != null ==> key in pool.clients && c == pool.clients[key])
        && (key in old(pool.clients) ==> c == old(pool.clients)[key] && pool.clients == old(pool.clients))
        && (key !in old(pool.clients) && !constructs ==> c == null && pool.clients == old(pool.clients))
        && (key !in old(pool.clients) && constructs ==>
              && c != null && fresh(c) && pool.clients == old(pool.clients)[key := c] && !c.closed
              && c.provider == "openai" && c.baseUrl == Some(baseUrl)
              && c.headers == AuthHeaders("openai", Some(apiKey))
              && c.timeout == TimeoutFor("openai", 30.0)
              && c.limits == Limits(15, 8, 30.0)
              && c.http2 && c.retries == 3)
    {
      if client == null {
        var r := pool.GetClient("openai", Some(baseUrl), Some(apiKey), 30.0, 15, 8, constructs);
        if r.Some? {
          client := r.value;
        }
      }
      c := client;
    }
  }

  /** The Server-Sent Events field prefix the streaming call strips. */
  const DataPrefix: string := "data: "

  /** The payloads the streaming call yields for the response lines: each line
      starting with the data prefix, with the prefix removed, in order. */
  function DataPayloads(lines: seq<string>): (r: seq<string>)
    ensures |r| <= |lines|
  {
    if lines == [] then []
    else
      var last := lines[|lines| - 1];
      DataPayloads(lines[..|lines| - 1]) + (if StartsWith(last, DataPrefix) then [last[6..]] else [])
  }

  /** The data lines themselves, in order. */
  function DataLines(lines: seq<string>): seq<string>
  {
    if lines == [] then []
    else (if StartsWith(lines[0], DataPrefix) then [lines[0]] else []) + DataLines(lines[1..])
  }

  function Prefixed(payloads: seq<string>): (r: seq<string>)
    ensures |r| == |payloads| && forall i :: 0 <= i < |r| ==> r[i] == DataPrefix + payloads[i]
  {
    seq(|payloads|, i requires 0 <= i < |payloads| => DataPrefix + payloads[i])
  }

  /** `DataLines` gains a line at the back exactly as `DataPayloads` does. */
  lemma {:induction false} DataLinesSnoc(lines: seq<string>, line: string)
    ensures DataLines(lines + [line]) == DataLines(lines) + (if StartsWith(line, DataPrefix) then [line] else [])
    decreases |lines|
  {
    if lines == [] {
      assert [] + [line] == [line];
      assert [line][1..] == [];
    } else {
      assert (lines + [line])[0] == lines[0];
      assert (lines + [line])[1..] == lines[1..] + [line];
      DataLinesSnoc(lines[1..], line);
    }
  }

  /** Putting the prefix back on every payload gives exactly the data lines of
      the response, in order: nothing is invented, lost or reordered. */
  lemma {:induction false} PayloadsRestore(lines: seq<string>)
    ensures Prefixed(DataPayloads(lines)) == DataLines(lines)
    decreases |lines|
  {
    if lines != [] {
      var init, last := lines[..|lines| - 1], lines[|lines| - 1];
      PayloadsRestore(init);
      assert lines == init + [last];
      DataLinesSnoc(init, last);
      if StartsWith(last, DataPrefix) {
        assert DataPrefix + last[6..] == last;
      }
    }
  }

  /** The line filter of `chat_completion_stream`, over the lines the response
      delivered. */
  method StreamPayloads(lines: seq<string>) returns (payloads: seq<string>)
    ensures payloads == DataPayloads(lines)
  {
    payloads := [];
    var i := 0;
    while i < |lines|
      invariant 0 <= i <= |lines|
      invariant payloads == DataPayloads(lines[..i])
    {
      var line := lines[i];
      assert lines[..i + 1][..i] == lines[..i];
      if StartsWith(line, DataPrefix) {
        payloads := payloads + [line[6..]];
      }
      i := i + 1;
    }
    assert lines[..i] == lines;
  }

  /** The share of requests that reused a connection, in percent. */
  function ReuseRate(reuseCount: nat, requestCount: nat): (r: real)
    ensures requestCount == 0 ==> r == 0.0
    ensures 0.0 <= r && (reuseCount <= requestCount ==> r <= 100.0)
    ensures requestCount > 0 && reuseCount == requestCount ==> r == 100.0
  {
    if requestCount > 0 then reuseCount as real / requestCount as real * 100.0 else 0.0
  }

  /** Request counters of the pool. */
  class ConnectionPoolMetrics {
    var requestCount: nat
    var connectionReuseCount: nat
    var totalRequestTime: real
    var averageRequestTime: real

    /** No more reuses than requests, and the average is the total over the count. */
    ghost predicate Valid()
      reads this
    {
      && connectionReuseCount <= requestCount
      && (requestCount > 0 ==> averageRequestTime == totalRequestTime / requestCount as real)
    }

    constructor ()
      ensures Valid()
      ensures requestCount == 0 && connectionReuseCount == 0
      ensures totalRequestTime == 0.0 && averageRequestTime == 0.0
    {
      requestCount := 0;
      connectionReuseCount := 0;
      totalRequestTime := 0.0;
      averageRequestTime := 0.0;
    }

    /** `record_request`: one more request, one more reuse exactly when the
        connection was reused, and the duration added to the total. */
    method RecordRequest(duration: real, connectionReused: bool)
      requires Valid()
      modifies this
      ensures Valid()
      ensures requestCount == old(requestCount) + 1
      ensures connectionReuseCount == old(connectionReuseCount) + (if connectionReused then 1 else 0)
      ensures totalRequestTime == old(totalRequestTime) + duration
    {
      requestCount := requestCount + 1;
      totalRequestTime := totalRequestTime + duration;
      averageRequestTime := totalRequestTime / requestCount as real;
      if connectionReused {
        connectionReuseCount := connectionReuseCount + 1;
      }
    }
  }
}
