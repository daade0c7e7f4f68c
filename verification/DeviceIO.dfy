/**
 The data path of the TUN device (veiltun/device.go): what the batched Read and Write move
 between the caller's buffers and the driver's rings. What the driver will answer is a finite
 sequence fixed in advance but otherwise arbitrary; closed and the spin deadline are read
 nondeterministically. A call the driver stops answering is reported as Pending, so the
 contracts hold of every finite piece of an execution, blocked calls included.
 */
module DeviceIO {
  import opened Wrappers
  import opened Octets
  import opened Rings

  const MAX_PACKET_SIZE: nat := 0xFFFF

  /** How a call ends. Retry only ends a pass of the batch loop, Pending only a piece of a call. */
  datatype Status = Ok | ErrClosed | ErrIo | Pending | Retry

  /** The packets among the first k answers of the receive ring, in order. */
  function Packets(answers: seq<Receipt>, k: nat): seq<Packet>
    requires k <= |answers|
  {
    if k == 0 then []
    else Packets(answers, k - 1) + if answers[k - 1].Received? then [answers[k - 1].packet] else []
  }

  lemma {:induction false} PacketsPrefix(answers: seq<Receipt>, i: nat, j: nat)
    requires i <= j <= |answers|
    ensures Packets(answers, i) <= Packets(answers, j)
    decreases j
  {
    if i < j {
      PacketsPrefix(answers, i, j - 1);
    }
  }

  /** The packets yielded by the first k answers. */
  function CountReceived(answers: seq<Receipt>, k: nat): nat
    requires k <= |answers|
  {
    if k == 0 then 0 else CountReceived(answers, k - 1) + if answers[k - 1].Received? then 1 else 0
  }

  lemma {:induction false} PacketsCounted(answers: seq<Receipt>, k: nat)
    requires k <= |answers|
    ensures |Packets(answers, k)| == CountReceived(answers, k)
  {
    if k > 0 {
      PacketsCounted(answers, k - 1);
    }
  }

  /** Every packet that is yielded counts, at its place. */
  lemma {:induction false} PacketAt(answers: seq<Receipt>, k: nat, j: nat)
    requires j < k <= |answers| && answers[j].Received?
    ensures var at := CountReceived(answers, j);
      at < |Packets(answers, k)| && Packets(answers, k)[at] == answers[j].packet
  {
    PacketsCounted(answers, k - 1);
    if j < k - 1 {
      PacketAt(answers, k - 1, j);
    }
  }

  /** What is left of a packet in a buffer with the given room. */
  function Clip(packet: Bytes, room: nat): Bytes {
    if |packet| <= room then packet else packet[..room]
  }

  lemma ClipIsWhatFits(packet: Bytes, room: nat)
    ensures Clip(packet, room) <= packet
    ensures |Clip(packet, room)| == if |packet| <= room then |packet| else room
  {
  }

  /** A buffer after Go's copy of a packet to offset. */
  function CopyIn(buf: Bytes, offset: nat, packet: Bytes): (r: Bytes)
    requires offset <= |buf|
    ensures |r| == |buf|
  {
    var copied := Clip(packet, |buf| - offset);
    buf[..offset] + copied + buf[offset + |copied|..]
  }

  /** The session of the driver: its two rings. */
  class Session {
    const polls: seq<Receipt>         // all the receive ring will answer, and how much of it has been asked
    var polled: nat
    const allocs: seq<Allotment>       // the same for the send ring
    var reserved: nat
    ghost var released: seq<Packet>
    ghost var sent: seq<Bytes>

    constructor (polls: seq<Receipt>, allocs: seq<Allotment>)
      ensures this.polls == polls && this.allocs == allocs
      ensures polled == 0 && reserved == 0 && released == [] && sent == []
    {
      this.polls, this.allocs, polled, reserved, released, sent := polls, allocs, 0, 0, [], [];
    }

    method ReceivePacket() returns (answer: Receipt)
      requires polled < |polls|
      modifies this`polled
      ensures polled == old(polled) + 1 && answer == polls[old(polled)]
    {
      answer := polls[polled];
      polled := polled + 1;
    }

    method ReleaseReceivePacket(packet: Packet)
      modifies this`released
      ensures released == old(released) + [packet]
    {
      released := released + [packet];
    }

    method AllocateSendPacket() returns (answer: Allotment)
      requires reserved < |allocs|
      modifies this`reserved
      ensures reserved == old(reserved) + 1 && answer == allocs[old(reserved)]
    {
      answer := allocs[reserved];
      reserved := reserved + 1;
    }

    method SendPacket(packet: Bytes)
      modifies this`sent
      ensures sent == old(sent) + [packet]
    {
      sent := sent + [packet];
    }

    /** Every packet the ring has yielded so far has been released, once and in order. */
    ghost predicate RingInOrder()
      reads this
    {
      polled <= |polls| && released == Packets(polls, polled)
    }
  }

  // ---------------------------------------------------------------- Read

  predicate OffsetFits(bufs: seq<Bytes>, offset: nat) {
    forall j | 0 <= j < |bufs| :: offset <= |bufs[j]|
  }

  /** The buffers after n slots took packets[base], packets[base + 1], ... */
  function Filled(bufs: seq<Bytes>, offset: nat, packets: seq<Packet>, base: nat, n: nat): (r: seq<Bytes>)
    requires n <= |bufs| && base + n <= |packets| && OffsetFits(bufs, offset)
    ensures |r| == |bufs| && forall j | n <= j < |bufs| :: r[j] == bufs[j]
  {
    if n == 0 then bufs
    else Filled(bufs, offset, packets, base, n - 1)[n - 1 := CopyIn(bufs[n - 1], offset, packets[base + n - 1])]
  }

  /** The sizes after the same. */
  function FilledSizes(bufs: seq<Bytes>, sizes: seq<nat>, offset: nat, packets: seq<Packet>, base: nat, n: nat)
    : (r: seq<nat>)
    requires n <= |bufs| <= |sizes| && base + n <= |packets| && OffsetFits(bufs, offset)
    ensures |r| == |sizes|
  {
    if n == 0 then sizes
    else FilledSizes(bufs, sizes, offset, packets, base, n - 1)
         [n - 1 := |Clip(packets[base + n - 1], |bufs[n - 1]| - offset)|]
  }

  lemma {:induction false} FilledFrame(
      bufs: seq<Bytes>, sizes: seq<nat>, offset: nat, packets: seq<Packet>, base: nat, n: nat, packet: Packet)
    requires n <= |bufs| <= |sizes| && base + n <= |packets| && OffsetFits(bufs, offset)
    ensures Filled(bufs, offset, packets + [packet], base, n) == Filled(bufs, offset, packets, base, n)
    ensures FilledSizes(bufs, sizes, offset, packets + [packet], base, n)
         == FilledSizes(bufs, sizes, offset, packets, base, n)
  {
    if n > 0 {
      FilledFrame(bufs, sizes, offset, packets, base, n - 1, packet);
    }
  }

  lemma CopiedIn(buf: Bytes, offset: nat, packet: Packet)
    requires offset <= |buf|
    ensures var copied := Clip(packet, |buf| - offset);
            var slot := CopyIn(buf, offset, packet);
      && slot[offset..offset + |copied|] == copied && slot[..offset] == buf[..offset]
      && slot[offset + |copied|..] == buf[offset + |copied|..]
  {
  }

  lemma {:induction false} FilledAt(
      bufs: seq<Bytes>, sizes: seq<nat>, offset: nat, packets: seq<Packet>, base: nat, n: nat, j: nat)
    requires n <= |bufs| <= |sizes| && base + n <= |packets| && OffsetFits(bufs, offset) && j < |sizes|
    ensures j < n ==> Filled(bufs, offset, packets, base, n)[j] == CopyIn(bufs[j], offset, packets[base + j])
    ensures FilledSizes(bufs, sizes, offset, packets, base, n)[j]
         == if j < n then |Clip(packets[base + j], |bufs[j]| - offset)| else sizes[j]
  {
    if n > 0 {
      FilledAt(bufs, sizes, offset, packets, base, n - 1, j);
    }
  }

  /** What a batch leaves in the caller's memory: slot j holds packet base + j, clipped to the room
      there was, from offset on, and its length in sizes[j]; every other byte is as before. */
  lemma FilledSlot(bufs: seq<Bytes>, sizes: seq<nat>, offset: nat, packets: seq<Packet>, base: nat, n: nat, j: nat)
    requires n <= |bufs| <= |sizes| && base + n <= |packets| && OffsetFits(bufs, offset) && j < |bufs|
    ensures var after := Filled(bufs, offset, packets, base, n)[j];
            var length := FilledSizes(bufs, sizes, offset, packets, base, n)[j];
      && (j < n ==>
            && |after| == |bufs[j]| && offset + length <= |after|
            && after[offset..offset + length] == Clip(packets[base + j], |bufs[j]| - offset)
            && after[..offset] == bufs[j][..offset] && after[offset + length..] == bufs[j][offset + length..])
      && (j >= n ==> after == bufs[j] && length == sizes[j])
  {
    FilledAt(bufs, sizes, offset, packets, base, n, j);
    if j < n {
      CopiedIn(bufs[j], offset, packets[base + j]);
    }
  }

  /** The contents of the first n slots, as the caller of Read finds them. */
  ghost function Slots(bufs: seq<Bytes>, sizes: seq<nat>, offset: nat, n: nat): seq<Bytes>
    requires SlotsFit(bufs, sizes, offset, n)
  {
    seq(n, j requires 0 <= j < n => bufs[j][offset..offset + sizes[j]])
  }

  ghost function Rooms(bufs: seq<Bytes>, offset: nat, n: nat): seq<nat>
    requires n <= |bufs| && OffsetFits(bufs, offset)
  {
    seq(n, j requires 0 <= j < n => |bufs[j]| - offset)
  }

  ghost predicate ClippedInOrder(delivered: seq<Bytes>, yielded: seq<Packet>, rooms: seq<nat>) {
    && |delivered| == |rooms| == |yielded|
    && forall j | 0 <= j < |yielded| :: delivered[j] == Clip(yielded[j], rooms[j])
  }

  ghost predicate SlotsFit(bufs: seq<Bytes>, sizes: seq<nat>, offset: nat, n: nat) {
    n <= |bufs| && n <= |sizes| && forall j | 0 <= j < n :: offset + sizes[j] <= |bufs[j]|
  }

  lemma FilledFits(bufs: seq<Bytes>, sizes: seq<nat>, offset: nat, packets: seq<Packet>, base: nat, n: nat)
    requires n <= |bufs| <= |sizes| && base + n <= |packets| && OffsetFits(bufs, offset)
    ensures SlotsFit(Filled(bufs, offset, packets, base, n), FilledSizes(bufs, sizes, offset, packets, base, n),
                     offset, n)
  {
    forall j | 0 <= j < n {
      FilledSlot(bufs, sizes, offset, packets, base, n, j);
    }
  }

  lemma ClippedConcat(d1: seq<Bytes>, y1: seq<Packet>, r1: seq<nat>, d2: seq<Bytes>, y2: seq<Packet>, r2: seq<nat>,
                      yielded: seq<Packet>)
    requires ClippedInOrder(d1, y1, r1) && ClippedInOrder(d2, y2, r2) && yielded == y1 + y2
    ensures ClippedInOrder(d1 + d2, yielded, r1 + r2)
  {
  }

  /** The slots a batch filled hold the packets it took, in order, each clipped to its slot. */
  lemma BatchDelivered(bufs: seq<Bytes>, sizes: seq<nat>, offset: nat, packets: seq<Packet>, base: nat, n: nat)
    requires n <= |bufs| <= |sizes| && base + n == |packets| && OffsetFits(bufs, offset)
    ensures var after := Filled(bufs, offset, packets, base, n);
            var lengths := FilledSizes(bufs, sizes, offset, packets, base, n);
      SlotsFit(after, lengths, offset, n)
      && ClippedInOrder(Slots(after, lengths, offset, n), packets[base..], Rooms(bufs, offset, n))
  {
    FilledFits(bufs, sizes, offset, packets, base, n);
    var after := Filled(bufs, offset, packets, base, n);
    var lengths := FilledSizes(bufs, sizes, offset, packets, base, n);
    forall j | 0 <= j < n
      ensures Slots(after, lengths, offset, n)[j] == Clip(packets[base..][j], Rooms(bufs, offset, n)[j])
    {
      FilledSlot(bufs, sizes, offset, packets, base, n, j);
    }
  }

  /** A batch keeps the account of everything delivered. */
  lemma DeliveredSoFar(delivered: seq<Bytes>, rooms: seq<nat>, bufs: seq<Bytes>, sizes: seq<nat>, offset: nat,
                       packets: seq<Packet>, base: nat, n: nat)
    requires n <= |bufs| <= |sizes| && base + n == |packets| && OffsetFits(bufs, offset)
    requires ClippedInOrder(delivered, packets[..base], rooms)
    ensures var after := Filled(bufs, offset, packets, base, n);
            var lengths := FilledSizes(bufs, sizes, offset, packets, base, n);
      SlotsFit(after, lengths, offset, n)
      && ClippedInOrder(delivered + Slots(after, lengths, offset, n), packets, rooms + Rooms(bufs, offset, n))
  {
    BatchDelivered(bufs, sizes, offset, packets, base, n);
    var after, lengths := Filled(bufs, offset, packets, base, n), FilledSizes(bufs, sizes, offset, packets, base, n);
    var slots := Slots(after, lengths, offset, n);
    assert packets == packets[..base] + packets[base..];
    ClippedConcat(delivered, packets[..base], rooms, slots, packets[base..], Rooms(bufs, offset, n), packets);
  }

  /** Over any sequence of calls, delivery is exact just when every packet fitted the slot it met. */
  lemma ExactDelivery(delivered: seq<Bytes>, yielded: seq<Packet>, rooms: seq<nat>)
    requires ClippedInOrder(delivered, yielded, rooms)
    ensures delivered == yielded <==> forall j | 0 <= j < |yielded| :: |yielded[j]| <= rooms[j]
  {
    if delivered == yielded {
      forall j | 0 <= j < |yielded| ensures |yielded[j]| <= rooms[j] {
        assert |Clip(yielded[j], rooms[j])| == |yielded[j]|;
      }
    } else {
      var j :| 0 <= j < |yielded| && delivered[j] != yielded[j];
    }
  }

  // ---------------------------------------------------------------- Write

  /** Write offers a buffer to the send ring if its payload is non-empty and not above the limit. */
  predicate Eligible(buf: Bytes, offset: nat) {
    0 < |buf| - offset <= MAX_PACKET_SIZE
  }

  function CountEligible(bufs: seq<Bytes>, offset: nat, k: nat): nat
    requires k <= |bufs|
  {
    if k == 0 then 0 else CountEligible(bufs, offset, k - 1) + if Eligible(bufs[k - 1], offset) then 1 else 0
  }

  /** The payloads among the first k buffers whose allocation is granted, the answers being allotted
      to the eligible buffers in order from answer number base. */
  function GrantedPayloads(bufs: seq<Bytes>, offset: nat, k: nat, allocs: seq<Allotment>, base: nat): seq<Bytes>
    requires k <= |bufs| && base + CountEligible(bufs, offset, k) <= |allocs|
  {
    if k == 0 then []
    else
      GrantedPayloads(bufs, offset, k - 1, allocs, base)
      + if Eligible(bufs[k - 1], offset) && allocs[base + CountEligible(bufs, offset, k - 1)].Granted?
        then [bufs[k - 1][offset..]] else []
  }

  /** How many of the n answers from number base on grant the allocation. */
  function CountGranted(allocs: seq<Allotment>, base: nat, n: nat): nat
    requires base + n <= |allocs|
  {
    if n == 0 then 0 else CountGranted(allocs, base, n - 1) + if allocs[base + n - 1].Granted? then 1 else 0
  }

  lemma {:induction false} GrantedCounted(bufs: seq<Bytes>, offset: nat, k: nat, allocs: seq<Allotment>, base: nat)
    requires k <= |bufs| && base + CountEligible(bufs, offset, k) <= |allocs|
    ensures |GrantedPayloads(bufs, offset, k, allocs, base)|
         == CountGranted(allocs, base, CountEligible(bufs, offset, k))
  {
    if k > 0 {
      GrantedCounted(bufs, offset, k - 1, allocs, base);
    }
  }

  /** A buffer is offered just when its payload has between 1 and 65535 bytes; what is offered and granted is
      sent whole, from the offset on, at its place. */
  lemma {:induction false} GrantedAt(
      bufs: seq<Bytes>, offset: nat, k: nat, allocs: seq<Allotment>, base: nat, j: nat)
    requires j < k <= |bufs| && base + CountEligible(bufs, offset, k) <= |allocs|
    ensures CountEligible(bufs, offset, j + 1)
         == CountEligible(bufs, offset, j) + if 1 <= |bufs[j]| - offset <= 65535 then 1 else 0
    ensures var number := CountEligible(bufs, offset, j);
      1 <= |bufs[j]| - offset <= 65535 ==>
        && base + number < |allocs| && number < CountEligible(bufs, offset, k)
        && (allocs[base + number].Granted? ==>
              var at := CountGranted(allocs, base, number);
              && at < |GrantedPayloads(bufs, offset, k, allocs, base)|
              && GrantedPayloads(bufs, offset, k, allocs, base)[at] == bufs[j][offset..])
  {
    GrantedCounted(bufs, offset, k - 1, allocs, base);
    if j < k - 1 {
      GrantedAt(bufs, offset, k - 1, allocs, base, j);
    }
  }

  class NativeTun {
    const session: Session
    var closed: bool                   // set by Close, at any time, and never reset
    ghost var delivered: seq<Bytes>    // all slots handed to the caller so far, over all calls
    ghost var rooms: seq<nat>          // the room each of those slots had

    /** Over all calls made so far: what was delivered is, in order, what the ring yielded, each
        packet clipped to its slot and released once. */
    ghost predicate Valid()
      reads this, session
    {
      session.RingInOrder() && ClippedInOrder(delivered, session.released, rooms)
    }

    constructor (session: Session)
      requires session.polled == 0 && session.released == []
      ensures Valid() && this.session == session && delivered == [] && !closed
    {
      this.session, closed, delivered, rooms := session, false, [], [];
    }

    /** The atomic load of closed, which a Close running elsewhere may have set by now. */
    method LoadClosed() returns (c: bool)
      modifies this`closed
      ensures c == closed && (old(closed) ==> closed)
    {
      var justClosed: bool := *;
      closed := closed || justClosed;
      return closed;
    }

    /** The verdict a pass or a call gives after n packets, when it began with answer number since. A
        failing call has taken no packet; a batch ends early, but with its packets, only if the ring yields no
        packet or the device is closed. */
    ghost predicate Verdict(since: nat, n: nat, slots: nat, status: Status)
      reads session, this`closed
    {
      var asked := since < session.polled <= |session.polls|;
      && (status.ErrClosed? ==> n == 0 && (closed || (asked && session.polls[session.polled - 1] == HandleEof)))
      && (status.ErrIo? <==> n == 0 && asked && session.polls[session.polled - 1] == ReceiveFailed)
      && (status.Retry? ==> n == 0 && asked && session.polls[session.polled - 1] == NoMoreItems)
      && (status.Pending? ==> session.polled == |session.polls|)
      && (status.Ok? ==> n <= slots)
      && (status.Ok? && n < slots ==>
            n > 0 && (closed || (asked && !session.polls[session.polled - 1].Received?)))
      && (n == 0 && asked && session.polls[session.polled - 1] == HandleEof ==> status.ErrClosed?)
    }

    /** Slot i takes a packet just received, the slots before it being filled, and releases it. */
    method TakePacket(bufs: array<Bytes>, sizes: array<nat>, offset: nat, i: nat, packet: Packet,
                      ghost before: seq<Bytes>, ghost sizesBefore: seq<nat>, ghost base: nat)
      requires i < |before| <= |sizesBefore| && OffsetFits(before, offset) && |session.released| == base + i
      requires bufs[..] == Filled(before, offset, session.released, base, i)
      requires sizes[..] == FilledSizes(before, sizesBefore, offset, session.released, base, i)
      modifies session`released, bufs, sizes
      ensures session.released == old(session.released) + [packet]
      ensures bufs[..] == Filled(before, offset, session.released, base, i + 1)
      ensures sizes[..] == FilledSizes(before, sizesBefore, offset, session.released, base, i + 1)
    {
      assert bufs.Length == |bufs[..]| && sizes.Length == |sizes[..]|;
      assert bufs[i] == before[i] by { assert bufs[i] == bufs[..][i]; }
      FilledFrame(before, sizesBefore, offset, session.released, base, i, packet);
      sizes[i] := |Clip(packet, |bufs[i]| - offset)|;
      bufs[i] := CopyIn(bufs[i], offset, packet);
      session.ReleaseReceivePacket(packet);
    }

    /** The polls for one slot of a batch that holds n packets so far: the packet taken from the ring, or
        else how the batch ends. The slot is re-polled only while the batch is empty. */
    method NextPacket(n: nat) returns (packet: Option<Packet>, status: Status)
      requires session.polled <= |session.polls|
      modifies session`polled, this`closed
      ensures old(session.polled) <= session.polled <= |session.polls| && (old(closed) ==> closed)
      ensures packet.Some? ==> status == Ok && session.polled > old(session.polled)
      ensures packet.None? ==> Verdict(old(session.polled), n, n + 1, status)
      ensures Packets(session.polls, session.polled)
           == Packets(session.polls, old(session.polled)) + if packet.Some? then [packet.value] else []
    {
      while true
        invariant old(session.polled) <= session.polled <= |session.polls| && (old(closed) ==> closed)
        invariant old(session.polled) < session.polled ==> n == 0 && session.polls[session.polled - 1] == NoMoreItems
        invariant Packets(session.polls, session.polled) == Packets(session.polls, old(session.polled))
        decreases |session.polls| - session.polled
      {
        var c := LoadClosed();
        if c {
          return None, if n > 0 then Ok else ErrClosed;
        }
        if session.polled == |session.polls| {
          return None, Pending;
        }
        var answer := session.ReceivePacket();
        match answer {
          case Received(received) =>
            return Some(received), Ok;
          case NoMoreItems =>
            if n > 0 {
              return None, Ok;
            }
            // Cannot spin, or the spin deadline has passed: block on the event and start over.
            var park: bool := *;
            if park {
              return None, Retry;
            }
          case HandleEof =>
            return None, if n > 0 then Ok else ErrClosed;
          case ReceiveFailed =>
            return None, if n > 0 then Ok else ErrIo;
        }
      }
    }

    /** The body of the batch loop: fills slot n, or says how the batch ends. */
    method FillSlot(bufs: array<Bytes>, sizes: array<nat>, offset: nat, n: nat,
                    ghost before: seq<Bytes>, ghost sizesBefore: seq<nat>, ghost base: nat)
      returns (filled: bool, status: Status)
      requires session.RingInOrder() && |session.released| == base + n
      requires n < |before| <= |sizesBefore| && OffsetFits(before, offset)
      requires bufs[..] == Filled(before, offset, session.released, base, n)
      requires sizes[..] == FilledSizes(before, sizesBefore, offset, session.released, base, n)
      modifies session`polled, session`released, this`closed, bufs, sizes
      ensures old(closed) ==> closed
      ensures session.RingInOrder() && |session.released| == base + if filled then n + 1 else n
      ensures filled ==> status == Ok && session.polled > old(session.polled)
      ensures !filled ==> session.polled >= old(session.polled) && Verdict(old(session.polled), n, n + 1, status)
      ensures bufs[..] == Filled(before, offset, session.released, base, if filled then n + 1 else n)
      ensures sizes[..] == FilledSizes(before, sizesBefore, offset, session.released, base, if filled then n + 1 else n)
    {
      var packet;
      packet, status := NextPacket(n);
      filled := packet.Some?;
      if filled {
        TakePacket(bufs, sizes, offset, n, packet.value, before, sizesBefore, base);
      }
    }

    /** One pass of the batch loop. */
    method FillBatch(bufs: array<Bytes>, sizes: array<nat>, offset: nat) returns (n: nat, status: Status)
      requires session.RingInOrder()
      requires bufs.Length <= sizes.Length && OffsetFits(bufs[..], offset)
      modifies session`polled, session`released, this`closed, bufs, sizes
      ensures old(closed) ==> closed
      ensures session.RingInOrder() && Verdict(old(session.polled), n, bufs.Length, status)
      ensures old(session.polled) <= session.polled && n <= bufs.Length
      ensures |session.released| == |old(session.released)| + n
      ensures bufs[..] == Filled(old(bufs[..]), offset, session.released, |old(session.released)|, n)
      ensures sizes[..]
           == FilledSizes(old(bufs[..]), old(sizes[..]), offset, session.released, |old(session.released)|, n)
    {
      ghost var before, sizesBefore, base := bufs[..], sizes[..], |session.released|;
      n, status := 0, Ok;
      for i := 0 to bufs.Length
        invariant i == n && status == Ok && session.RingInOrder() && (old(closed) ==> closed)
        invariant old(session.polled) <= session.polled && (n == 0 ==> session.polled == old(session.polled))
        invariant |session.released| == base + n
        invariant bufs[..] == Filled(before, offset, session.released, base, n)
        invariant sizes[..] == FilledSizes(before, sizesBefore, offset, session.released, base, n)
      {
        var filled;
        filled, status := FillSlot(bufs, sizes, offset, n, before, sizesBefore, base);
        if !filled {
          break;
        }
        n := n + 1;
      }
    }

    /** Accounts for a batch that left the packets released after the first base in its slots. */
    ghost method Record(before: seq<Bytes>, sizesBefore: seq<nat>, offset: nat, base: nat, n: nat)
      requires n <= |before| <= |sizesBefore| && base + n == |session.released| && OffsetFits(before, offset)
      requires ClippedInOrder(delivered, session.released[..base], rooms)
      modifies this`delivered, this`rooms
      ensures SlotsFit(Filled(before, offset, session.released, base, n),
                       FilledSizes(before, sizesBefore, offset, session.released, base, n), offset, n)
      ensures delivered == old(delivered)
                           + Slots(Filled(before, offset, session.released, base, n),
                                   FilledSizes(before, sizesBefore, offset, session.released, base, n), offset, n)
      ensures rooms == old(rooms) + Rooms(before, offset, n)
      ensures ClippedInOrder(delivered, session.released, rooms)
    {
      DeliveredSoFar(delivered, rooms, before, sizesBefore, offset, session.released, base, n);
      delivered := delivered + Slots(Filled(before, offset, session.released, base, n),
                                     FilledSizes(before, sizesBefore, offset, session.released, base, n), offset, n);
      rooms := rooms + Rooms(before, offset, n);
    }

    /** From the retry label on: passes of the batch loop until one does not come back to the label. */
    method FillOrWait(bufs: array<Bytes>, sizes: array<nat>, offset: nat) returns (n: nat, status: Status)
      requires session.RingInOrder()
      requires bufs.Length <= sizes.Length && OffsetFits(bufs[..], offset)
      modifies session`polled, session`released, this`closed, bufs, sizes
      ensures old(closed) ==> closed && status == ErrClosed && session.polled == old(session.polled)
      ensures session.RingInOrder() && Verdict(old(session.polled), n, bufs.Length, status) && status != Retry
      ensures old(session.polled) <= session.polled && n <= bufs.Length
      ensures |session.released| == |old(session.released)| + n
      ensures bufs[..] == Filled(old(bufs[..]), offset, session.released, |old(session.released)|, n)
      ensures sizes[..]
           == FilledSizes(old(bufs[..]), old(sizes[..]), offset, session.released, |old(session.released)|, n)
    {
      ghost var before, sizesBefore, base := bufs[..], sizes[..], |session.released|;
      n, status := 0, Retry;
      while status == Retry
        invariant session.RingInOrder() && (old(closed) ==> closed)
        invariant old(closed) ==> session.polled == old(session.polled) && status in {Retry, ErrClosed}
        invariant status == Retry ==> n == 0
        invariant status == Retry && old(session.polled) < session.polled ==>
          session.polls[session.polled - 1] == NoMoreItems
        invariant status != Retry ==> Verdict(old(session.polled), n, bufs.Length, status)
        invariant old(session.polled) <= session.polled && n <= bufs.Length
        invariant |session.released| == base + n
        invariant bufs[..] == Filled(before, offset, session.released, base, n)
        invariant sizes[..] == FilledSizes(before, sizesBefore, offset, session.released, base, n)
        decreases |session.polls| - session.polled, status == Retry
      {
        var c := LoadClosed();
        if c {
          status := ErrClosed;
        } else {
          n, status := FillBatch(bufs, sizes, offset);
        }
      }
    }

    method Read(bufs: array<Bytes>, sizes: array<nat>, offset: nat) returns (n: nat, status: Status)
      requires Valid()
      requires bufs.Length <= sizes.Length && OffsetFits(bufs[..], offset)
      modifies this, session`polled, session`released, bufs, sizes
      ensures Valid() && Verdict(old(session.polled), n, bufs.Length, status) && status != Retry
      ensures old(closed) ==> closed && status == ErrClosed && session.polled == old(session.polled)
      ensures old(session.polled) <= session.polled && n <= bufs.Length
      ensures |session.released| == |old(session.released)| + n
      ensures session.released[..|old(session.released)|] == old(session.released)
      ensures bufs[..] == Filled(old(bufs[..]), offset, session.released, |old(session.released)|, n)
      ensures sizes[..]
           == FilledSizes(old(bufs[..]), old(sizes[..]), offset, session.released, |old(session.released)|, n)
      ensures SlotsFit(bufs[..], sizes[..], offset, n)
      ensures delivered == old(delivered) + Slots(bufs[..], sizes[..], offset, n)
      ensures rooms == old(rooms) + Rooms(old(bufs[..]), offset, n)
    {
      ghost var before, sizesBefore, base := bufs[..], sizes[..], |session.released|;
      n, status := FillOrWait(bufs, sizes, offset);
      PacketsPrefix(session.polls, old(session.polled), session.polled);
      Record(before, sizesBefore, offset, base, n);
    }

    /** Sends the eligible payloads of bufs in order; a full ring drops one and goes on, and only a
        terminating or failing ring stops the batch, at the buffer whose number is returned. */
    method Write(bufs: seq<Bytes>, offset: nat) returns (count: nat, status: Status)
      requires session.reserved <= |session.allocs|
      modifies session`reserved, session`sent, this`closed
      ensures count <= |bufs|
      ensures old(closed) ==> closed && status == ErrClosed && count == 0 && session.reserved == old(session.reserved)
      ensures var asked := session.reserved - old(session.reserved);
              var offered := CountEligible(bufs, offset, count);
        && (asked == offered || (asked == offered + 1 && status in {ErrClosed, ErrIo}))
        && session.reserved <= |session.allocs|
        && session.sent
           == old(session.sent) + GrantedPayloads(bufs, offset, count, session.allocs, old(session.reserved))
        && (forall k | old(session.reserved) <= k < old(session.reserved) + offered ::
              session.allocs[k] in {Granted, BufferOverflow})
        && (asked > offered ==>
              && count < |bufs| && Eligible(bufs[count], offset)
              && session.allocs[session.reserved - 1] == if status == ErrIo then AllocFailed else AllocEof)
        && (status == Ok ==> count == |bufs|)
        && (status == ErrClosed && asked == offered ==> count == 0 && closed)
        && (status == ErrIo ==> asked > offered)
        && (status == Pending ==> session.reserved == |session.allocs| && count < |bufs|)
        && status != Retry
    {
      ghost var base := session.reserved;
      var c := LoadClosed();
      if c {
        return 0, ErrClosed;
      }
      for i := 0 to |bufs|
        invariant session.reserved == base + CountEligible(bufs, offset, i) <= |session.allocs|
        invariant forall k | base <= k < session.reserved :: session.allocs[k] in {Granted, BufferOverflow}
        invariant session.sent == old(session.sent) + GrantedPayloads(bufs, offset, i, session.allocs, base)
      {
        if !Eligible(bufs[i], offset) {
          continue;
        }
        if session.reserved == |session.allocs| {
          return i, Pending;
        }
        var answer := session.AllocateSendPacket();
        match answer {
          case Granted => session.SendPacket(bufs[i][offset..]);
          case BufferOverflow =>
          case AllocEof => return i, ErrClosed;
          case AllocFailed => return i, ErrIo;
        }
      }
      return |bufs|, Ok;
    }
  }
}
