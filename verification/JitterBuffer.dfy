// The receive side of an RTP channel: a ring of 20 packet buffers filled in
// arrival order, and a second ring of 20 pointers into it indexed by sequence
// number modulo 20, from which packets are released in order.

module JitterBuffer {
  import opened Common

  const BUFFERPACKETCOUNT := 20
  const BUFFERDELAYCOUNT := 10

  type Endpoint = int

  /** A received packet: its 16-bit sequence number and the bytes that follow. */
  datatype Packet = Packet(sn: u16, payload: seq<int>)

  /** One call to processrtpdata: the packet handed over and the skip count. */
  datatype Release = Release(packet: Packet, skip: u32)

  /** Pointers into rtpdata are indices; None is nullptr. processed is the
      sequence of calls made to processrtpdata, oldest first. */
  datatype State = State(
    rtpdata: seq<Packet>,
    ordered: seq<Option<nat>>,
    minsn: u16,
    maxsn: u16,
    bottom: u16,
    lastsn: u16,
    indexin: nat,
    received: bool,
    confirmed: Endpoint,
    reading: bool,
    processed: seq<Release>
  )

  /** What the array sizes and the index arithmetic guarantee in every state. */
  ghost predicate WellFormed(s: State) {
    && |s.rtpdata| == BUFFERPACKETCOUNT
    && |s.ordered| == BUFFERPACKETCOUNT
    && s.bottom < BUFFERPACKETCOUNT
    && s.indexin < BUFFERPACKETCOUNT
    && forall k :: 0 <= k < BUFFERPACKETCOUNT && s.ordered[k].Some? ==> s.ordered[k].value < BUFFERPACKETCOUNT
  }

  /** The slot of a packet in the pointer ring. */
  function SlotOf(pk: Packet): (k: nat)
    ensures k < BUFFERPACKETCOUNT
  {
    pk.sn % BUFFERPACKETCOUNT
  }

  const EMPTY_PACKET := Packet(0, [])

  /** A freshly constructed and opened channel. */
  function Fresh(): (s: State)
    ensures WellFormed(s)
  {
    State(seq(BUFFERPACKETCOUNT, _ => EMPTY_PACKET), seq(BUFFERPACKETCOUNT, _ => None),
          0, 0, 0, 0, 0, false, 0, true, [])
  }

  function Sub16(a: int, b: int): (r: u16) { (a - b) % U16_RANGE }

  /** Where an accepted packet goes: the pointer ring, the bounds and the restart rule. */
  function Order(s: State, at: nat, sn: u16): State
    requires WellFormed(s) && at < BUFFERPACKETCOUNT
  {
    var t := s.(ordered := s.ordered[sn % BUFFERPACKETCOUNT := Some(at)],
                maxsn := if sn > s.maxsn then sn else s.maxsn);
    if sn > s.minsn + BUFFERPACKETCOUNT then
      t.(minsn := sn, maxsn := sn, bottom := sn % BUFFERPACKETCOUNT)
    else t
  }

  /** A datagram completes the outstanding read. The first sender is the only one
      accepted; a datagram from anyone else has already overwritten the buffer and
      the read is not started again. */
  function Arrive(s: State, pk: Packet, src: Endpoint): (t: State)
    requires WellFormed(s)
  {
    if !s.reading then s else
    var filled := s.(rtpdata := s.rtpdata[s.indexin := pk]);
    var known := if s.received then filled
                 else filled.(confirmed := src, received := true, lastsn := Sub16(pk.sn, 1));
    if known.confirmed != src then known.(reading := false)
    else Order(known, s.indexin, pk.sn).(indexin := (s.indexin + 1) % BUFFERPACKETCOUNT)
  }

  /** Is there a packet at the bottom of the pointer ring that is old enough to go? */
  predicate Ready(s: State)
    requires WellFormed(s)
  {
    && s.received
    && s.ordered[s.bottom].Some?
    && Sub16(s.maxsn, s.rtpdata[s.ordered[s.bottom].value].sn) >= BUFFERDELAYCOUNT
  }

  function Bottom(s: State): Packet
    requires WellFormed(s) && s.ordered[s.bottom].Some?
  {
    s.rtpdata[s.ordered[s.bottom].value]
  }

  /** The skip count is computed in int and passed as uint32_t. */
  function SkipCount(sn: u16, last: u16): u32 { (Sub16(sn, last) - 1) % U32_RANGE }

  /** One call to handlertpdata; it returns true exactly when Ready held. */
  function Work(s: State): (t: State)
    requires WellFormed(s)
    ensures WellFormed(t)
  {
    if !Ready(s) then s else
    var pk := Bottom(s);
    s.(processed := if s.minsn == pk.sn then s.processed + [Release(pk, SkipCount(pk.sn, s.lastsn))]
                    else s.processed,
       lastsn := pk.sn,
       ordered := s.ordered[s.bottom := None],
       minsn := (s.minsn + 1) % U16_RANGE,
       bottom := (s.bottom + 1) % BUFFERPACKETCOUNT)
  }

  /** How many pointers are set: what makes the drain loop stop. */
  function Occupied(ring: seq<Option<nat>>): nat {
    if ring == [] then 0
    else Occupied(ring[..|ring| - 1]) + (if ring[|ring| - 1].Some? then 1 else 0)
  }

  lemma {:induction false} ClearingReduces(ring: seq<Option<nat>>, k: nat)
    requires k < |ring| && ring[k].Some?
    ensures Occupied(ring[k := None]) + 1 == Occupied(ring)
  {
    var n := |ring| - 1;
    if k == n {
      assert ring[k := None][..n] == ring[..n];
    } else {
      assert ring[k := None][..n] == ring[..n][k := None];
      ClearingReduces(ring[..n], k);
    }
  }

  /** The tick's loop: while( handlertpdata() ). */
  function Drain(s: State): (t: State)
    requires WellFormed(s)
    ensures WellFormed(t) && !Ready(t)
    decreases Occupied(s.ordered)
  {
    if Ready(s) then
      (ClearingReduces(s.ordered, s.bottom); Drain(Work(s)))
    else s
  }

  /** What open() resets. It clears only the first 10 of the 20 pointers. */
  function Reopen(s: State): State
    requires WellFormed(s)
  {
    s.(indexin := 0, received := false, reading := true,
       ordered := seq(BUFFERPACKETCOUNT,
                      k requires 0 <= k < BUFFERPACKETCOUNT => if k < BUFFERDELAYCOUNT then None else s.ordered[k]),
       minsn := 0, maxsn := 0, bottom := 0, lastsn := 0)
  }

  /** The channel object itself, with its arrays updated in place. */
  class Channel {
    const rtpdata: array<Packet>
    const orderedrtpdata: array<Option<nat>>
    var orderedinminsn: u16
    var orderedinmaxsn: u16
    var orderedinbottom: u16
    var lastworkedonsn: u16
    var rtpindexin: nat
    var receivedrtp: bool
    var confirmedrtpsenderendpoint: Endpoint
    var reading: bool
    var processed: seq<Release>

    ghost predicate Valid()
      reads this, rtpdata, orderedrtpdata
    {
      && rtpdata as object != orderedrtpdata as object
      && rtpdata.Length == BUFFERPACKETCOUNT && orderedrtpdata.Length == BUFFERPACKETCOUNT
      && WellFormed(Abstract())
    }

    ghost function Abstract(): State
      reads this, rtpdata, orderedrtpdata
    {
      State(rtpdata[..], orderedrtpdata[..], orderedinminsn, orderedinmaxsn, orderedinbottom, lastworkedonsn,
            rtpindexin, receivedrtp, confirmedrtpsenderendpoint, reading, processed)
    }

    constructor ()
      ensures Valid() && Abstract() == Fresh()
      ensures fresh(rtpdata) && fresh(orderedrtpdata)
    {
      rtpdata := new Packet[BUFFERPACKETCOUNT](_ => EMPTY_PACKET);
      orderedrtpdata := new Option<nat>[BUFFERPACKETCOUNT](_ => None);
      orderedinminsn, orderedinmaxsn, orderedinbottom, lastworkedonsn := 0, 0, 0, 0;
      rtpindexin, receivedrtp, confirmedrtpsenderendpoint, reading := 0, false, 0, true;
      processed := [];
      new;
      assert rtpdata[..] == Fresh().rtpdata;
      assert orderedrtpdata[..] == Fresh().ordered;
    }

    method Open()
      requires Valid()
      modifies this, orderedrtpdata
      ensures Valid() && Abstract() == Reopen(old(Abstract()))
    {
      ghost var was := Abstract();
      rtpindexin, receivedrtp, reading := 0, false, true;
      var i := 0;
      while i < BUFFERDELAYCOUNT
        invariant 0 <= i <= BUFFERDELAYCOUNT
        invariant rtpdata[..] == was.rtpdata && confirmedrtpsenderendpoint == was.confirmed && processed == was.processed
        invariant rtpindexin == 0 && !receivedrtp && reading
        invariant forall k :: 0 <= k < i ==> orderedrtpdata[k] == None
        invariant forall k :: i <= k < BUFFERPACKETCOUNT ==> orderedrtpdata[k] == was.ordered[k]
      {
        orderedrtpdata[i] := None;
        i := i + 1;
      }
      orderedinminsn, orderedinmaxsn, orderedinbottom, lastworkedonsn := 0, 0, 0, 0;
      assert orderedrtpdata[..] == Reopen(was).ordered;
    }

    method ReadSomeRtp(pk: Packet, src: Endpoint)
      requires Valid()
      modifies this, rtpdata, orderedrtpdata
      ensures Valid() && Abstract() == Arrive(old(Abstract()), pk, src)
    {
      if !reading { return; }
      ghost var was := Abstract();
      rtpdata[rtpindexin] := pk;
      assert rtpdata[..] == was.rtpdata[was.indexin := pk];
      if !receivedrtp {
        confirmedrtpsenderendpoint := src;
        receivedrtp := true;
        lastworkedonsn := Sub16(rtpdata[rtpindexin].sn, 1);
      }
      if confirmedrtpsenderendpoint != src {
        reading := false;
        return;
      }
      OrderPacket(rtpindexin);
      rtpindexin := (rtpindexin + 1) % BUFFERPACKETCOUNT;
    }

    /** The ordering step inside the read handler. */
    method OrderPacket(at: nat)
      requires Valid() && at < BUFFERPACKETCOUNT
      modifies this, orderedrtpdata
      ensures Valid() && Abstract() == Order(old(Abstract()), at, rtpdata[at].sn)
    {
      ghost var was := orderedrtpdata[..];
      var sn := rtpdata[at].sn;
      orderedrtpdata[sn % BUFFERPACKETCOUNT] := Some(at);
      assert orderedrtpdata[..] == was[sn % BUFFERPACKETCOUNT := Some(at)];
      if sn > orderedinmaxsn { orderedinmaxsn := sn; }
      if sn > orderedinminsn + BUFFERPACKETCOUNT {
        orderedinminsn, orderedinmaxsn := sn, sn;
        orderedinbottom := sn % BUFFERPACKETCOUNT;
      }
    }

    method HandleRtpData() returns (more: bool)
      requires Valid()
      modifies this, orderedrtpdata
      ensures Valid() && Abstract() == Work(old(Abstract()))
      ensures more == Ready(old(Abstract()))
    {
      if !receivedrtp { return false; }
      var src := orderedrtpdata[orderedinbottom];
      if src == None { return false; }
      var sn := rtpdata[src.value].sn;
      var aheadby := Sub16(orderedinmaxsn, sn);
      if aheadby < BUFFERDELAYCOUNT { return false; }
      var workingonaheadby := Sub16(sn, lastworkedonsn);
      if orderedinminsn == sn {
        processed := processed + [Release(rtpdata[src.value], (workingonaheadby - 1) % U32_RANGE)];
      }
      lastworkedonsn := sn;
      orderedrtpdata[orderedinbottom] := None;
      orderedinminsn := (orderedinminsn + 1) % U16_RANGE;
      orderedinbottom := (orderedinbottom + 1) % BUFFERPACKETCOUNT;
      return true;
    }

    /** The part of the 20 ms tick that empties the buffer into the mix. */
    method HandleTick()
      requires Valid()
      modifies this, orderedrtpdata
      ensures Valid() && Abstract() == Drain(old(Abstract()))
    {
      var more := true;
      while more
        invariant Valid()
        invariant Drain(Abstract()) == Drain(old(Abstract()))
        invariant !more ==> !Ready(Abstract())
        decreases Occupied(orderedrtpdata[..]), more
      {
        if Ready(Abstract()) {
          ClearingReduces(orderedrtpdata[..], orderedinbottom);
        }
        more := HandleRtpData();
      }
    }
  }
}
