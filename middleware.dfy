/**
 * The query pipeline of main.go: the override tables built from the
 * configuration, and the handler that answers one decoded query from the
 * cache, an exact-host override, a registrable-domain (TLD) override or the
 * upstream resolver, in that order.
 *
 * Foreign pieces are parameters: the public-suffix computation `etld1`
 * (whose error is discarded, so a failure shows as whatever string it
 * returns), address parsing `parseIP`, the upstream exchange (an optional
 * response) and the clock, read twice per query as in the source: `now`
 * when the cache is consulted and `addedAt` when the reply is added to it
 * (in nanoseconds; the handler's own running time, the upstream exchange
 * included, lies between them).
 */
module Middleware {
  import opened Wrappers
  import opened DnsMsg
  import GoCache
  import Configuration

  // ---------------------------------------------------------------- tables

  datatype Family = V4 | V6

  function Address(item: Configuration.ItemConfig, family: Family): string {
    match family
    case V4 => item.ipv4
    case V6 => item.ipv6
  }

  /** The keys of a list of override entries. */
  ghost function Keys(items: seq<Configuration.ItemConfig>): set<string> {
    set j | 0 <= j < |items| :: items[j].key
  }

  /** The map that writing every entry of `items`, in order, into an empty map yields. */
  function Table(items: seq<Configuration.ItemConfig>, family: Family): map<string, string>
  {
    if items == [] then map[]
    else Table(items[..|items| - 1], family)[items[|items| - 1].key := Address(items[|items| - 1], family)]
  }

  /** The table holds exactly the configured keys. */
  lemma {:induction false} TableKeys(items: seq<Configuration.ItemConfig>, family: Family)
    ensures Table(items, family).Keys == Keys(items)
  {
    if items != [] {
      var init := items[..|items| - 1];
      TableKeys(init, family);
      assert Keys(items) == Keys(init) + {items[|items| - 1].key} by {
        forall k | k in Keys(items) ensures k in Keys(init) + {items[|items| - 1].key} {
          var j :| 0 <= j < |items| && items[j].key == k;
          if j < |items| - 1 { assert init[j] == items[j]; }
        }
        forall k | k in Keys(init) ensures k in Keys(items) {
          var j :| 0 <= j < |init| && init[j].key == k;
          assert items[j] == init[j];
        }
      }
    }
  }

  /** For a key configured more than once, the last entry with that key wins. */
  lemma {:induction false} TableLastWins(items: seq<Configuration.ItemConfig>, family: Family, j: nat)
    requires j < |items|
    requires forall j' | j < j' < |items| :: items[j'].key != items[j].key
    ensures items[j].key in Table(items, family)
    ensures Table(items, family)[items[j].key] == Address(items[j], family)
  {
    if j < |items| - 1 {
      var init := items[..|items| - 1];
      assert init[j] == items[j];
      forall j' | j < j' < |init| ensures init[j'].key != init[j].key {
        assert init[j'] == items[j'];
      }
      TableLastWins(init, family, j);
    }
  }

  /** The v4 and v6 tables built from one list share their key set. */
  lemma TablesShareKeys(items: seq<Configuration.ItemConfig>)
    ensures Table(items, V4).Keys == Table(items, V6).Keys
  {
    TableKeys(items, V4);
    TableKeys(items, V6);
  }

  /**
   * The construction loop: one pass over the entries filling a v4 and a v6
   * map. The result is the table of each family.
   */
  method BuildTables(items: seq<Configuration.ItemConfig>) returns (v4: map<string, string>, v6: map<string, string>)
    ensures v4 == Table(items, V4) && v6 == Table(items, V6)
    ensures v4.Keys == v6.Keys == Keys(items)
  {
    v4, v6 := map[], map[];
    var i := 0;
    while i < |items|
      invariant 0 <= i <= |items|
      invariant v4 == Table(items[..i], V4)
      invariant v6 == Table(items[..i], V6)
    {
      assert items[..i + 1][..i] == items[..i];
      v4 := v4[items[i].key := items[i].ipv4];
      v6 := v6[items[i].key := items[i].ipv6];
      i := i + 1;
    }
    assert items[..|items|] == items;
    TableKeys(items, V4);
    TableKeys(items, V6);
  }

  /** The four override maps the handler reads. */
  datatype Overrides = Overrides(
    v4: map<string, string>,
    v6: map<string, string>,
    tldV4: map<string, string>,
    tldV6: map<string, string>)

  /** A Go map read: the stored value, or "" for a missing key. */
  function Lookup(m: map<string, string>, key: string): (v: string)
    ensures key in m ==> v == m[key]
    ensures key !in m ==> v == ""
  {
    if key in m then m[key] else ""
  }

  // ------------------------------------------------------------ names, TTL

  /** `strings.TrimSuffix(s, ".")`: removes one trailing dot, if there is one. */
  function TrimDot(s: string): (r: string)
    ensures |s| > 0 && s[|s| - 1] == '.' ==> r + "." == s
    ensures !(|s| > 0 && s[|s| - 1] == '.') ==> r == s
  {
    if |s| > 0 && s[|s| - 1] == '.' then s[..|s| - 1] else s
  }

  /** `uint32(conf.TTL)`: the configured TTL truncated to 32 bits. */
  function Ttl32(ttl: Configuration.int64): (r: uint32)
    ensures 0 <= ttl as int < 0x1_0000_0000 ==> r as int == ttl as int
    ensures (r as int - ttl as int) % 0x1_0000_0000 == 0
  {
    (ttl as int % 0x1_0000_0000) as uint32
  }

  /** The two records an override answers with: an A and then an AAAA, both for `domain`, class IN. */
  function Synthesize(domain: string, ttl: Configuration.int64, a: IP, aaaa: IP): seq<RR> {
    [RR(Header(domain, TypeA, ClassINET, Ttl32(ttl)), AData(a)),
     RR(Header(domain, TypeAAAA, ClassINET, Ttl32(ttl)), AAAAData(aaaa))]
  }

  // --------------------------------------------------------------- handler

  /**
   * What one call of the handler does: write a reply, or dereference a
   * missing upstream response. That panic is not recovered and terminates
   * the whole process, so nothing follows a `NilDereference`.
   */
  datatype Outcome = Reply(msg: Msg) | NilDereference

  datatype Step = Step(outcome: Outcome, cache: GoCache.Items)

  /** Where an answer came from; the pipeline tries these in this order. */
  datatype Source = CacheHit | HostOverride | TldOverride | Upstream

  /** Which stage answers a query for `domain` at `now`. */
  function SourceOf(t: Overrides, etld1: string -> string, cache: GoCache.Items, domain: string, now: int): Source {
    if GoCache.Get(cache, domain, now).Some? then CacheHit
    else if TrimDot(domain) in t.v4 then HostOverride
    else if etld1(TrimDot(domain)) in t.tldV4 then TldOverride
    else Upstream
  }

  /** Every cached message is an authoritative response whose single question names its key. */
  ghost predicate CacheKeyed(cache: GoCache.Items) {
    forall k | k in cache ::
      && |cache[k].msg.question| == 1
      && cache[k].msg.question[0].name == k
      && cache[k].msg.authoritative
      && cache[k].msg.response
  }

  /**
   * The handler, as a function of the tables, the cache, the query, the
   * two clock readings and the upstream's response to the query: the
   * outcome and the cache afterwards.
   */
  function Resolve(t: Overrides, ttl: Configuration.int64, etld1: string -> string, parseIP: string -> IP,
                   cache: GoCache.Items, r: Msg, now: int, addedAt: int, upstream: Option<Msg>): (s: Step)
    requires |r.question| > 0
    requires now <= addedAt
    // Cache hit: the cached message re-addressed to this query; the same
    // object is what stays cached, with its answers and expiry unchanged.
    ensures var domain := r.question[0].name;
      SourceOf(t, etld1, cache, domain, now) == CacheHit ==>
        && domain in cache
        && s.outcome == Reply(SetReply(cache[domain].msg, r))
        && s.outcome.msg.answer == cache[domain].msg.answer
        && s.cache.Keys == cache.Keys
        && s.cache[domain] == GoCache.Item(s.outcome.msg, cache[domain].expiration)
        && (forall k | k in cache && k != domain :: s.cache[k] == cache[k])
    // Host override: exactly an A from the host v4 map and an AAAA from the host v6 map.
    ensures var domain := r.question[0].name; var name := TrimDot(domain);
      SourceOf(t, etld1, cache, domain, now) == HostOverride ==>
        && s.outcome.Reply?
        && s.outcome.msg.answer == Synthesize(domain, ttl, parseIP(t.v4[name]), parseIP(Lookup(t.v6, name)))
    // TLD override: the A from the TLD v4 map, the AAAA still from the host v6 map.
    ensures var domain := r.question[0].name; var name := TrimDot(domain);
      SourceOf(t, etld1, cache, domain, now) == TldOverride ==>
        && s.outcome.Reply?
        && s.outcome.msg.answer ==
           Synthesize(domain, ttl, parseIP(t.tldV4[etld1(name)]), parseIP(Lookup(t.v6, name)))
    // Upstream: its answer records unmodified, or a failure that writes nothing.
    ensures var domain := r.question[0].name;
      SourceOf(t, etld1, cache, domain, now) == Upstream ==>
        && (upstream.None? ==> s == Step(NilDereference, cache))
        && (upstream.Some? ==> s.outcome.Reply? && s.outcome.msg.answer == upstream.value.answer)
    // Every reply that is not a cache hit: authoritative, a success response
    // to this query with no other sections, cached under the dotted name.
    ensures var domain := r.question[0].name;
      SourceOf(t, etld1, cache, domain, now) != CacheHit && s.outcome.Reply? ==>
        && s.outcome.msg.authoritative && s.outcome.msg.response
        && s.outcome.msg.rcode == RcodeSuccess
        && s.outcome.msg.id == r.id && s.outcome.msg.opcode == r.opcode
        && s.outcome.msg.question == [r.question[0]]
        && s.outcome.msg.ns == [] && s.outcome.msg.extra == []
        && s.cache == cache[domain := GoCache.Item(s.outcome.msg, addedAt + GoCache.Lifetime)]
    ensures CacheKeyed(cache) ==> CacheKeyed(s.cache)
  {
    var domain := r.question[0].name;
    var name := TrimDot(domain);
    var tld := etld1(name);
    match GoCache.Get(cache, domain, now)
    case Some(msg) =>
      var reply := SetReply(msg, r);
      Step(Reply(reply), cache[domain := cache[domain].(msg := reply)])
    case None =>
      var answer :=
        if name in t.v4 then Some(Synthesize(domain, ttl, parseIP(t.v4[name]), parseIP(Lookup(t.v6, name))))
        else if tld in t.tldV4 then Some(Synthesize(domain, ttl, parseIP(t.tldV4[tld]), parseIP(Lookup(t.v6, name))))
        else if upstream.Some? then Some(upstream.value.answer)
        else None;
      if answer.None? then Step(NilDereference, cache)
      else
        var m := SetReply(EmptyMsg.(answer := answer.value, authoritative := true), r);
        Step(Reply(m), GoCache.Add(cache, domain, m, addedAt))
  }

  // ------------------------------------------------------- handler lemmas

  /** Both override paths answer with an A then an AAAA, each named by the dotted query name, class IN, the configured TTL. */
  lemma OverrideRecordShape(t: Overrides, ttl: Configuration.int64, etld1: string -> string, parseIP: string -> IP,
                            cache: GoCache.Items, r: Msg, now: int, addedAt: int, upstream: Option<Msg>)
    requires |r.question| > 0
    requires now <= addedAt
    requires SourceOf(t, etld1, cache, r.question[0].name, now) in {HostOverride, TldOverride}
    ensures var answer := Resolve(t, ttl, etld1, parseIP, cache, r, now, addedAt, upstream).outcome.msg.answer;
      && |answer| == 2
      && answer[0].hdr.rrtype == TypeA && answer[0].data.AData?
      && answer[1].hdr.rrtype == TypeAAAA && answer[1].data.AAAAData?
      && forall rr | rr in answer ::
           rr.hdr.name == r.question[0].name && rr.hdr.rrclass == ClassINET && rr.hdr.ttl == Ttl32(ttl)
  {
  }

  /** A cache hit consults neither the override tables nor the upstream. */
  lemma CacheHitConsultsNothing(t: Overrides, t': Overrides, ttl: Configuration.int64, ttl': Configuration.int64,
                                etld1: string -> string, etld1': string -> string,
                                parseIP: string -> IP, parseIP': string -> IP,
                                cache: GoCache.Items, r: Msg, now: int, addedAt: int, upstream: Option<Msg>, upstream': Option<Msg>)
    requires |r.question| > 0
    requires now <= addedAt
    requires GoCache.Get(cache, r.question[0].name, now).Some?
    ensures Resolve(t, ttl, etld1, parseIP, cache, r, now, addedAt, upstream) ==
            Resolve(t', ttl', etld1', parseIP', cache, r, now, addedAt, upstream')
  {
  }

  /** An exact-host override wins whatever the TLD tables hold for the name's registrable domain. */
  lemma HostOverrideIgnoresTlds(t: Overrides, tldV4: map<string, string>, tldV6: map<string, string>,
                                ttl: Configuration.int64, etld1: string -> string, parseIP: string -> IP,
                                cache: GoCache.Items, r: Msg, now: int, addedAt: int, upstream: Option<Msg>)
    requires |r.question| > 0
    requires now <= addedAt
    requires SourceOf(t, etld1, cache, r.question[0].name, now) == HostOverride
    ensures Resolve(t, ttl, etld1, parseIP, cache, r, now, addedAt, upstream) ==
            Resolve(t.(tldV4 := tldV4, tldV6 := tldV6), ttl, etld1, parseIP, cache, r, now, addedAt, upstream)
  {
  }

  /** The TLD v6 map is built but never read. */
  lemma TldV6NeverRead(t: Overrides, tldV6: map<string, string>,
                       ttl: Configuration.int64, etld1: string -> string, parseIP: string -> IP,
                       cache: GoCache.Items, r: Msg, now: int, addedAt: int, upstream: Option<Msg>)
    requires |r.question| > 0
    requires now <= addedAt
    ensures Resolve(t, ttl, etld1, parseIP, cache, r, now, addedAt, upstream) ==
            Resolve(t.(tldV6 := tldV6), ttl, etld1, parseIP, cache, r, now, addedAt, upstream)
  {
  }

  /**
   * On the TLD path the host lookup has just failed, and the host maps
   * share their keys, so the AAAA address is parsed from "" and is unset.
   */
  lemma TldOverrideAaaaUnset(t: Overrides, ttl: Configuration.int64, etld1: string -> string, parseIP: string -> IP,
                             cache: GoCache.Items, r: Msg, now: int, addedAt: int, upstream: Option<Msg>)
    requires |r.question| > 0
    requires now <= addedAt
    requires t.v4.Keys == t.v6.Keys
    requires parseIP("") == NilIP
    requires SourceOf(t, etld1, cache, r.question[0].name, now) == TldOverride
    ensures var answer := Resolve(t, ttl, etld1, parseIP, cache, r, now, addedAt, upstream).outcome.msg.answer;
      answer[1].data == AAAAData(NilIP) &&
      answer[0].data == AData(parseIP(t.tldV4[etld1(TrimDot(r.question[0].name))]))
  {
  }

  /**
   * A second query for the same name that consults the cache within the
   * lifetime of the entry the first one added (at `a1`) is a cache hit:
   * whatever the upstream would say, it returns the first reply's answer
   * records, re-addressed to the second query.
   */
  lemma RepeatWithinLifetime(t: Overrides, ttl: Configuration.int64, etld1: string -> string,
                             parseIP: string -> IP, cache: GoCache.Items,
                             r1: Msg, t1: int, a1: int, up1: Option<Msg>,
                             r2: Msg, t2: int, a2: int, up2: Option<Msg>)
    requires |r1.question| > 0 && |r2.question| > 0
    requires r2.question[0].name == r1.question[0].name
    requires SourceOf(t, etld1, cache, r1.question[0].name, t1) != CacheHit
    requires 0 <= t1 <= a1 && t2 <= a2
    requires Resolve(t, ttl, etld1, parseIP, cache, r1, t1, a1, up1).outcome.Reply?
    requires t2 <= a1 + GoCache.Lifetime
    ensures var first := Resolve(t, ttl, etld1, parseIP, cache, r1, t1, a1, up1);
      var second := Resolve(t, ttl, etld1, parseIP, first.cache, r2, t2, a2, up2);
      && SourceOf(t, etld1, first.cache, r2.question[0].name, t2) == CacheHit
      && second.outcome == Reply(SetReply(first.outcome.msg, r2))
      && second.outcome.msg.answer == first.outcome.msg.answer
  {
  }

  /** An expired entry counts for nothing: the query runs as if the name were not cached. */
  lemma ExpiredEntryIgnored(t: Overrides, ttl: Configuration.int64, etld1: string -> string, parseIP: string -> IP,
                            cache: GoCache.Items, r: Msg, now: int, addedAt: int, upstream: Option<Msg>)
    requires |r.question| > 0
    requires now <= addedAt
    requires r.question[0].name in cache && GoCache.Expired(cache[r.question[0].name], now)
    ensures var s := Resolve(t, ttl, etld1, parseIP, cache, r, now, addedAt, upstream);
      var s' := Resolve(t, ttl, etld1, parseIP, cache - {r.question[0].name}, r, now, addedAt, upstream);
      && s.outcome == s'.outcome
      && (s.outcome.Reply? ==> s.cache == s'.cache)
  {
  }

  /** The override maps startup builds from a (defaulted) configuration. */
  function OverridesOf(s: Configuration.Settings): (t: Overrides)
    ensures t.v4.Keys == t.v6.Keys == Keys(s.hosts)
    ensures t.tldV4.Keys == t.tldV6.Keys == Keys(s.tlds)
  {
    TableKeys(s.hosts, V4); TableKeys(s.hosts, V6);
    TableKeys(s.tlds, V4); TableKeys(s.tlds, V6);
    Overrides(Table(s.hosts, V4), Table(s.hosts, V6), Table(s.tlds, V4), Table(s.tlds, V6))
  }

  /**
   * With no TLDs configured, any query that misses the cache and whose stripped name is not
   * a host key and whose registrable domain is "dev.io" gets the default
   * entry's IPv4 address; its AAAA address is parsed from the (missing)
   * host v6 entry, not from the default entry's "::1".
   */
  lemma DefaultTldAnswer(s: Configuration.Settings, etld1: string -> string, parseIP: string -> IP,
                         cache: GoCache.Items, r: Msg, now: int, addedAt: int, upstream: Option<Msg>)
    requires s.tlds == []
    requires |r.question| > 0
    requires now <= addedAt
    requires GoCache.Get(cache, r.question[0].name, now).None?
    requires TrimDot(r.question[0].name) !in Keys(s.hosts)
    requires etld1(TrimDot(r.question[0].name)) == "dev.io"
    ensures var d := Configuration.WithDefaults(s);
      var out := Resolve(OverridesOf(d), d.ttl, etld1, parseIP, cache, r, now, addedAt, upstream).outcome;
      out.Reply? && out.msg.answer == Synthesize(r.question[0].name, d.ttl, parseIP("127.0.0.1"), parseIP(""))
  {
  }

  /**
   * Host keys are compared with the query name stripped of one trailing
   * dot, so a host key written with its dot ("svc.local.") is matched only
   * by a name ending in "..", which a decoded query name never does.
   */
  lemma DottedHostKeyNeedsDoubleDot(domain: string, key: string)
    requires |key| > 0 && key[|key| - 1] == '.'
    requires TrimDot(domain) == key
    ensures |domain| >= 2 && domain[|domain| - 2..] == ".."
  {
  }

  // ---------------------------------------------------------------- server

  /**
   * The handler's state: the four override maps filled at startup, the
   * shared answer cache, the configured TTL, and the two foreign functions.
   */
  class Server {
    var mapv4: map<string, string>
    var mapv6: map<string, string>
    var maptldv4: map<string, string>
    var maptldv6: map<string, string>
    var cache: GoCache.Items
    const ttl: Configuration.int64
    const etld1: string -> string
    const parseIP: string -> IP

    ghost predicate Valid()
      reads this
    {
      mapv4.Keys == mapv6.Keys && CacheKeyed(cache)
    }

    function Tables(): Overrides
      reads this
    {
      Overrides(mapv4, mapv6, maptldv4, maptldv6)
    }

    /** Startup: fill the host maps from the hosts, the TLD maps from the TLDs, and start with an empty cache. */
    constructor (conf: Configuration.Configuration, etld1: string -> string, parseIP: string -> IP)
      ensures Valid()
      ensures mapv4 == Table(conf.hosts, V4) && mapv6 == Table(conf.hosts, V6)
      ensures maptldv4 == Table(conf.tlds, V4) && maptldv6 == Table(conf.tlds, V6)
      ensures Tables() == OverridesOf(conf.Snapshot())
      ensures cache == map[]
      ensures ttl == conf.ttl && this.etld1 == etld1 && this.parseIP == parseIP
    {
      var v4, v6 := BuildTables(conf.hosts);
      var tldV4, tldV6 := BuildTables(conf.tlds);
      mapv4, mapv6 := v4, v6;
      maptldv4, maptldv6 := tldV4, tldV6;
      cache := map[];
      this.ttl := conf.ttl;
      this.etld1 := etld1;
      this.parseIP := parseIP;
    }

    /**
     * One query: `upstream` is what the exchange with the first configured
     * resolver returns for `r`; `now` is the clock when the cache is read and
     * `addedAt` the clock when the reply is added. Only the cache changes,
     * as `Resolve` says.
     */
    method ServeDNS(r: Msg, now: int, addedAt: int, upstream: Option<Msg>) returns (out: Outcome)
      requires Valid()
      requires |r.question| > 0
      requires now <= addedAt
      modifies this`cache
      ensures Valid()
      ensures Step(out, cache) == Resolve(Tables(), ttl, etld1, parseIP, old(cache), r, now, addedAt, upstream)
    {
      var domain := r.question[0].name;
      var domainWithoutDot := TrimDot(domain);
      var tld := etld1(domainWithoutDot);

      var m := EmptyMsg;
      var cached := GoCache.Get(cache, domain, now);
      if cached.Some? {
        var msg := SetReply(cached.value, r);
        cache := cache[domain := cache[domain].(msg := msg)];
        out := Reply(msg);
      } else {
        if domainWithoutDot in mapv4 {
          var val := mapv4[domainWithoutDot];
          m := m.(answer := Synthesize(domain, ttl, parseIP(val), parseIP(Lookup(mapv6, domainWithoutDot))));
        } else if tld in maptldv4 {
          var val := maptldv4[tld];
          m := m.(answer := Synthesize(domain, ttl, parseIP(val), parseIP(Lookup(mapv6, domainWithoutDot))));
        } else {
          if upstream.None? {
            out := NilDereference;
            return;
          }
          m := m.(answer := upstream.value.answer);
        }
        m := m.(authoritative := true);
        m := SetReply(m, r);
        cache := GoCache.Add(cache, domain, m, addedAt);
        out := Reply(m);
      }
    }
  }
}
