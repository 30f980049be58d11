/** The events a UMCG kernel reports to user space, and the 64-bit word in which
    it reports them: a worker id whose low five bits are clear, with the event
    code in those bits. */
module Events {

  const WORKER_ID_SHIFT: bv8 := 5
  const EVENT_MASK: bv64 := 31

  datatype Event = Block | Wake | Wait | Exit | Timeout | Preempt

  datatype Option<+T> = None | Some(value: T)

  function Code(e: Event): (c: bv64)
    ensures 1 <= c <= 6
  {
    match e
    case Block => 1
    case Wake => 2
    case Wait => 3
    case Exit => 4
    case Timeout => 5
    case Preempt => 6
  }

  function FromCode(c: bv64): (e: Option<Event>)
    ensures e.Some? ==> Code(e.value) == c
    ensures e.None? <==> c == 0 || c > 6
  {
    if c == 1 then Some(Block)
    else if c == 2 then Some(Wake)
    else if c == 3 then Some(Wait)
    else if c == 4 then Some(Exit)
    else if c == 5 then Some(Timeout)
    else if c == 6 then Some(Preempt)
    else None
  }

  /** The numbers of the interface. */
  lemma EventNumbers()
    ensures EVENT_MASK == 0x1F && (1 as bv64) << WORKER_ID_SHIFT == EVENT_MASK + 1
    ensures Code(Block) == 1 && Code(Wake) == 2 && Code(Wait) == 3
    ensures Code(Exit) == 4 && Code(Timeout) == 5 && Code(Preempt) == 6
    ensures FromCode(1) == Some(Block) && FromCode(2) == Some(Wake) && FromCode(3) == Some(Wait)
    ensures FromCode(4) == Some(Exit) && FromCode(5) == Some(Timeout) && FromCode(6) == Some(Preempt)
  {
  }

  /** Registration refuses every other id. */
  predicate ValidId(id: bv64) { id & EVENT_MASK == 0 }

  function Encode(id: bv64, e: Event): (word: bv64) { id | Code(e) }

  function IdOf(word: bv64): bv64 { (word >> WORKER_ID_SHIFT) << WORKER_ID_SHIFT }

  function EventOf(word: bv64): Option<Event> { FromCode(word & EVENT_MASK) }

  /** The reader gets back what the kernel wrote, and no report looks like the
      zero that ends a buffer. */
  lemma EncodeRoundTrip(id: bv64, e: Event)
    requires ValidId(id)
    ensures IdOf(Encode(id, e)) == id
    ensures EventOf(Encode(id, e)) == Some(e)
    ensures Encode(id, e) != 0
  {
    var c := Code(e);
    assert c & 31 == c && c < 32;
    assert ((id | c) & 31) == (id & 31) | (c & 31);
  }

  /** Reports are ambiguous as soon as an id uses one of the five low bits, which
      is why registration refuses such an id: exactly the accepted ids survive. */
  lemma OnlyAlignedIdsSurvive(id: bv64, e: Event)
    ensures IdOf(Encode(id, e)) == id <==> ValidId(id)
  {
    if ValidId(id) {
      EncodeRoundTrip(id, e);
    } else {
      var w := Encode(id, e);
      assert ((w >> 5) << 5) & 31 == 0;
    }
  }

  /** A report as the reader sees it. */
  datatype Report = Report(id: bv64, event: Event)

  function EncodeAll(rs: seq<Report>): (ws: seq<bv64>)
    ensures |ws| == |rs|
    ensures forall i :: 0 <= i < |rs| ==> ws[i] == Encode(rs[i].id, rs[i].event)
  {
    seq(|rs|, i requires 0 <= i < |rs| => Encode(rs[i].id, rs[i].event))
  }

  /** The reader: words up to the first zero, each shifted and masked. */
  function Decode(buf: seq<bv64>): seq<Report>
  {
    if buf == [] || buf[0] == 0 then []
    else match EventOf(buf[0])
         case None => Decode(buf[1..])
         case Some(e) => [Report(IdOf(buf[0]), e)] + Decode(buf[1..])
  }

  /** A buffer that holds encoded reports and is then either full or zero
      terminated decodes to exactly those reports, whatever lies behind. */
  lemma {:induction false} DecodeRoundTrip(rs: seq<Report>, buf: seq<bv64>)
    requires |rs| <= |buf|
    requires buf[..|rs|] == EncodeAll(rs)
    requires |rs| < |buf| ==> buf[|rs|] == 0
    requires forall i :: 0 <= i < |rs| ==> ValidId(rs[i].id)
    ensures Decode(buf) == rs
  {
    if rs != [] {
      EncodeRoundTrip(rs[0].id, rs[0].event);
      assert buf[0] == buf[..|rs|][0] == Encode(rs[0].id, rs[0].event);
      var rest := buf[1..];
      assert rest[..|rs[1..]|] == buf[..|rs|][1..] == EncodeAll(rs[1..]);
      DecodeRoundTrip(rs[1..], rest);
      assert rs == [rs[0]] + rs[1..];
    }
  }
}
