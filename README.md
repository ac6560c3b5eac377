# local-dns query pipeline, in Dafny

A model of the core of a local DNS service. For every decoded query the
handler picks one source for the answer, in a fixed order:

1. the answer cache, keyed by the dotted name;
2. an exact-host override, keyed by the name without its trailing dot;
3. a registrable-domain (TLD) override, keyed by the name's
   effective-TLD-plus-one;
4. the first upstream resolver.

The model also covers how the override tables are built from the
configuration, and the defaults the configuration receives after its file
is decoded.

Files:

- `wrappers.dfy`: `Option`.
- `dns_msg.dfy`: messages, questions and records as plain values, plus the
  DNS library's `SetReply`.
- `go_cache.dfy`: the TTL cache's `Get` and `Add`, with time passed in
  explicitly (nanoseconds) and the fixed five-minute lifetime.
- `configuration.dfy`: the configuration shapes, the `init` defaulting
  (`WithDefaults`, and the class method `Init` that performs it field by
  field) and `GetCurrentEnvironment`.
- `middleware.dfy`: the table-building loop (`BuildTables`, specified by
  `Table`), and the handler. The class `Server` holds the four override maps
  and the cache, and its method `ServeDNS` branches as the handler does.
  `ServeDNS` is proved equal to the function `Resolve`, and the precedence,
  record-shape and caching properties are proved about `Resolve`.

Foreign pieces are parameters:

- the public-suffix computation is the function `etld1`; its discarded error
  shows up as whatever string it returns;
- address parsing is the function `parseIP`;
- the upstream exchange is an `Option<Msg>` (no response is `None`);
- the clock is read twice per query, as in the source: `now` when the cache
  is consulted, and `addedAt` (no earlier) when the reply is added to it.
  The time between them is the handler's own running time, including the
  upstream exchange.

Behaviour of the code that the model keeps, where one might expect
something else:

- On the TLD path the AAAA address is read from the host v6 map, keyed by
  the stripped name. It is not read from the TLD v6 map, which is built but
  never read (`TldV6NeverRead`). The host maps share their keys and the host
  lookup has just failed, so that AAAA is parsed from `""`
  (`TldOverrideAaaaUnset`). So the default `dev.io` entry answers with
  `127.0.0.1` and an unset AAAA, not `::1`, for every name under it that
  is not a host key (`DefaultTldAnswer`).
- The upstream error checks test the freshly allocated reply, not the
  upstream response, so they never fire:
  - a response with any response code is relayed with its answer records
    only;
  - the reply is marked authoritative, and `SetReply` resets its code to
    success;
  - no response at all ends in a nil dereference that the handler does not
    recover, so the whole process terminates. The model's `NilDereference`
    outcome stands for that termination; it writes nothing to the cache,
    and no later call of `ServeDNS` is meaningful after it.
- A cache entry is served up to and including its expiry instant. It is
  absent only strictly after `t + 5 min`.
- A cache hit re-addresses the cached message object itself. The cache then
  holds the re-addressed message, with the same answer records and expiry.
- Host keys are compared with the trailing-dot-stripped name. A host key
  written with its trailing dot is matched only by a name ending in "..",
  so it never matches a decoded query name (`DottedHostKeyNeedsDoubleDot`).

## Model

| member | source | states |
|---|---|---|
| `DnsMsg.SetReply` | main.go:151 | the reply carries the request's id, opcode and first question, is a success response, and keeps the answer, authority and additional sections and the authoritative flag |
| `DnsMsg.SetReplyOverwrites` | main.go:117 | re-addressing an already re-addressed message leaves only the latest request's trace |
| `GoCache.Get` | main.go:115 | a value is returned iff the key is present and not expired (positive expiration strictly before now), and it is the stored message (the definition of the library call; what it promises over time is proved in `AddedEntryLifetime` and `ExpiredEntryIgnored`) |
| `GoCache.Add` | main.go:153 | stores the message with expiration now + 5 min when the key has no live entry; otherwise the cache is unchanged (the definition of the library call; its effect on later lookups is proved in `AddedEntryLifetime` and `AddLeavesOtherKeys`) |
| `GoCache.AddedEntryLifetime` | main.go:76 | an entry added at time t ≥ 0 is a hit at every time in [t, t + 5 min] and a miss at every later time |
| `GoCache.AddLeavesOtherKeys` | main.go:153 | adding under one key does not change lookups of any other key at any time |
| `Configuration.WithDefaults` | configuration.go:49-78 | empty Env becomes "development"; Env "development" forces Log.File false, otherwise Log.File is kept; empty TLDS becomes exactly [dev.io → 127.0.0.1, ::1] and non-empty TLDS is kept; empty Resolver becomes /etc/resolv.conf; TTL 0 becomes 86400 and any other TTL is kept; Hosts, Bind, Log.Level and Log.Console are kept; the result is defaulted |
| `Configuration.DefaultedIsFixedPoint` | configuration.go:63-78 | the defaulting leaves a configuration unchanged iff it already has a non-empty Env, Resolver and TLDS, a non-zero TTL, and no file logging in development |
| `Configuration.WithDefaultsIdempotent` | configuration.go:63-78 | defaulting twice equals defaulting once |
| `Configuration.Configuration.constructor` | configuration.go:93 | a fresh configuration has every field at its zero value |
| `Configuration.Configuration.GetCurrentEnvironment` | configuration.go:44-46 | returns the stored Env unchanged (a getter; that the environment is never empty after `init` is proved in `Init`) |
| `Configuration.Configuration.Init` | configuration.go:48-79 | on a freshly allocated configuration (the one call site, configuration.go:93-94), the fields become the defaulting of GO_ENV and the decoded file; afterwards the environment is never empty |
| `Middleware.TableKeys` | main.go:62-73 | a table built from a list of entries has exactly the entries' keys as its key set |
| `Middleware.TableLastWins` | main.go:64-67 | for a key that appears more than once, the table holds the address of the last entry with that key |
| `Middleware.TablesShareKeys` | main.go:64-67 | the v4 and v6 tables built from one list have the same key set |
| `Middleware.BuildTables` | main.go:62-73 | the construction loop yields the v4 and v6 tables of the list, each with key set equal to the list's keys |
| `Middleware.OverridesOf` | main.go:62-73 | the host maps' key sets are the hosts' keys and the TLD maps' key sets are the TLDs' keys |
| `Middleware.Lookup` | main.go:127 | a map read yields the stored value for a present key and "" for a missing one (the definition of a Go map read; its consequence on the TLD path is proved in `TldOverrideAaaaUnset`) |
| `Middleware.TrimDot` | main.go:106 | a name ending in a dot is that dot appended to the result; any other name is returned unchanged |
| `Middleware.Ttl32` | main.go:122 | the record TTL is the configured TTL modulo 2^32, equal to it when it fits in 32 bits |
| `Middleware.Resolve` | main.go:104-156 | precedence cache → host → TLD → upstream; a hit returns the cached message re-addressed, with unchanged answers, keys and expiry; host: exactly [A(host v4), AAAA(host v6)]; TLD: [A(TLD v4 of etld1), AAAA(host v6 of the stripped name)]; upstream: its answer list unmodified, or a failure that changes nothing; every other reply is authoritative, a success response bound to the query with no other sections, and cached under the dotted name with expiry addedAt + 5 min, addedAt being the clock when the reply is added; keeps every cache entry keyed by its own question name |
| `Middleware.OverrideRecordShape` | main.go:120-139 | an override answer has two records, A first and AAAA second, each named by the dotted query name, with class IN and the 32-bit configured TTL |
| `Middleware.CacheHitConsultsNothing` | main.go:115-118 | on a cache hit the result does not depend on the override tables, TTL, etld1, address parsing or the upstream |
| `Middleware.HostOverrideIgnoresTlds` | main.go:120-130 | when the stripped name is a host key, the result is the same whatever the TLD tables hold |
| `Middleware.TldV6NeverRead` | main.go:130-139 | the result never depends on the TLD v6 map |
| `Middleware.TldOverrideAaaaUnset` | main.go:130-139 | on the TLD path, with host maps sharing their keys and "" parsing to nil, the A is the TLD's v4 address and the AAAA is unset |
| `Middleware.DefaultTldAnswer` | main.go:130-137 | with no TLDs configured, every query that misses the cache (whatever else the cache holds) and whose stripped name is not a host key and whose registrable domain is dev.io answers with A 127.0.0.1 and an AAAA parsed from "" |
| `Middleware.DottedHostKeyNeedsDoubleDot` | main.go:120 | a host key ending in a dot equals the stripped query name only when the query name ends in ".." |
| `Middleware.RepeatWithinLifetime` | main.go:115-153 | after a non-hit reply consulted at t1 ≥ 0 and added at a1 ≥ t1, a query for the same name that consults the cache at any t2 ≤ a1 + 5 min is a cache hit with the first reply's answers, re-addressed, whatever the upstream says |
| `Middleware.ExpiredEntryIgnored` | main.go:115 | an expired entry gives the same outcome as no entry, and the same cache whenever a reply is written |
| `Middleware.Server.constructor` | main.go:62-76 | the host and TLD maps are the tables of the configured hosts and TLDs (together, `OverridesOf` the configuration), the cache is empty, and the TTL is the configured one |
| `Middleware.Server.ServeDNS` | main.go:104-156 | the reply and the new cache are those `Resolve` gives for the old cache and the two clock readings; the host maps keep sharing keys and the cache stays keyed by question name |

## Left out

- Process startup in `main` is not modelled: the version banner, flags,
  starting the UDP/TCP listeners in goroutines, and the signal loop. They are
  I/O and concurrency.
- The DNS wire codec is not modelled. Messages and records are plain values.
  `SetReply` copies the id, the opcode and the first question. Its copying of
  the recursion-desired and checking-disabled bits is not modelled.
- The public-suffix computation is the parameter `etld1`. The parameter used
  for `net.ParseIP` carries no address syntax.
- The upstream exchange, the host:port join, and loading the resolver file
  with `ClientConfigFromFile` are one oracle value. For that reason the model
  does not capture the panic on a missing resolver configuration or an empty
  server list.
- The go-cache janitor sweep (every 10 minutes) is not modelled; it deletes
  only entries that `Get` already treats as absent. The cache's locking and
  concurrent callers are not modelled either.
- `addedAt + Lifetime` does not model int64 overflow of the nanosecond clock.
- The two clock readings are free parameters constrained only by
  `now <= addedAt`. The model does not capture other handlers writing the
  same key between the two readings.
- The cache holds a reference to the message object. The model stores the message as
  a value and writes the re-addressed message back on a cache hit; aliasing
  beyond that single object is not modelled.
- A query with no question makes the handler index past the end and panic.
  The model requires a question instead.
- The per-request log line, the remote-address parsing and `WriteMsg` are
  not modelled. The written message is the returned outcome.
- Reading and JSON-decoding the configuration file, and `os.Getenv`, are
  parameters of `Init`: the GO_ENV value and the field values that decoding
  leaves in a zero configuration.
- The warning and error prints in `init` are not modelled.
- The `GetConfiguration` singleton, with its atomic flag and mutex, is not
  modelled: its point is concurrency. Its allocation of a zero configuration
  is the `Configuration` constructor.
