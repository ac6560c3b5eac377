/**
 * Decoded DNS messages, as far as the query pipeline reads and writes them.
 * The wire codec itself lives in a library; here a message is a plain value
 * and the library's `SetReply` is a function on such values.
 */
module DnsMsg {

  newtype uint16 = x: int | 0 <= x < 0x1_0000
  newtype uint32 = x: int | 0 <= x < 0x1_0000_0000

  const TypeA: uint16 := 1
  const TypeAAAA: uint16 := 28
  const ClassINET: uint16 := 1
  const RcodeSuccess: int := 0

  /** A parsed IP address; `NilIP` is what address parsing yields for text it rejects. */
  datatype IP = NilIP | IP(octets: seq<bv8>)

  datatype Header = Header(name: string, rrtype: uint16, rrclass: uint16, ttl: uint32)

  /** Record data: the two address kinds the pipeline builds, and anything an upstream sends. */
  datatype RData = AData(a: IP) | AAAAData(aaaa: IP) | OtherData(raw: seq<bv8>)

  datatype RR = RR(hdr: Header, data: RData)

  datatype Question = Question(name: string, qtype: uint16, qclass: uint16)

  datatype Msg = Msg(
    id: uint16,
    response: bool,
    opcode: int,
    authoritative: bool,
    rcode: int,
    question: seq<Question>,
    answer: seq<RR>,
    ns: seq<RR>,
    extra: seq<RR>)

  /** The zero message that `new(dns.Msg)` allocates. */
  const EmptyMsg := Msg(0, false, 0, false, RcodeSuccess, [], [], [], [])

  /**
   * The library's `SetReply`: addresses `m` to `request` (its id, opcode
   * and first question), marks it a response with a success code, and
   * leaves the record sections and the authoritative flag as they were.
   */
  function SetReply(m: Msg, request: Msg): (reply: Msg)
    ensures reply.id == request.id && reply.opcode == request.opcode
    ensures reply.response && reply.rcode == RcodeSuccess
    ensures |request.question| > 0 ==> reply.question == [request.question[0]]
    ensures request.question == [] ==> reply.question == m.question
    ensures reply.authoritative == m.authoritative
    ensures reply.answer == m.answer && reply.ns == m.ns && reply.extra == m.extra
  {
    m.(id := request.id, response := true, opcode := request.opcode, rcode := RcodeSuccess,
       question := if |request.question| > 0 then [request.question[0]] else m.question)
  }

  /** Re-addressing a message twice leaves only the second request's trace. */
  lemma SetReplyOverwrites(m: Msg, r1: Msg, r2: Msg)
    requires |r2.question| > 0
    ensures SetReply(SetReply(m, r1), r2) == SetReply(m, r2)
  {
  }
}
