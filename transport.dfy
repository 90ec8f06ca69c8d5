/**
 * The USB byte stream the protocol runs over. The vendor library's write and
 * read calls are foreign code; here the device side is a script: the byte count
 * each successive write reports, and the bytes each successive read delivers.
 */
module Transport {
  import opened Bytes

  /** A queue after its head is consumed. */
  function Drop<T>(q: seq<T>): seq<T>
  {
    if q == [] then [] else q[1..]
  }

  /** The device side of a handle: what its coming writes report and its coming reads deliver. */
  datatype Responder = Responder(writeCounts: seq<int>, replies: seq<seq<byte>>) {

    /** The count the next write reports; a transport with nothing scripted transfers nothing. */
    function NextCount(): int
    {
      if writeCounts == [] then 0 else writeCounts[0]
    }

    /** The bytes the next read delivers: the next scripted reply, cut to the `max` bytes asked for. */
    function NextReply(max: nat): (r: seq<byte>)
      ensures |r| <= max
      ensures replies != [] && |replies[0]| <= max ==> r == replies[0]
    {
      if replies == [] then []
      else if |replies[0]| <= max then replies[0]
      else replies[0][..max]
    }

    /**
     * What a command sees of its response after writing a `frameLength`-byte
     * frame and, if the whole frame was taken, reading at most `max` bytes. A
     * short write reads nothing, which every command treats like a failed read.
     */
    function Answer(frameLength: nat, max: nat): (r: seq<byte>)
      ensures |r| <= max
      ensures NextCount() < frameLength ==> r == []
    {
      if NextCount() < frameLength then [] else NextReply(max)
    }

    /** The device after that exchange: one write consumed, and one reply if the write was complete. */
    function After(frameLength: nat): Responder
    {
      Responder(Drop(writeCounts), if NextCount() < frameLength then replies else Drop(replies))
    }
  }

  /** One open device handle. */
  class Link {
    /** Every frame handed to the transport, oldest first. */
    var sent: seq<seq<byte>>
    /** What the device does with the coming writes and reads. */
    var device: Responder

    constructor (device: Responder)
      ensures this.sent == [] && this.device == device
    {
      this.sent := [];
      this.device := device;
    }

    /** LJUSB_Write: hands `frame` to the device and reports how many bytes went out. */
    method Write(frame: seq<byte>) returns (count: int)
      modifies this
      ensures sent == old(sent) + [frame]
      ensures count == old(device).NextCount()
      ensures device == old(device).(writeCounts := Drop(old(device).writeCounts))
    {
      count := device.NextCount();
      device := device.(writeCounts := Drop(device.writeCounts));
      sent := sent + [frame];
    }

    /** LJUSB_Read: the bytes of the next response, at most `max` of them. */
    method Read(max: nat) returns (bytes: seq<byte>)
      modifies this
      ensures bytes == old(device).NextReply(max)
      ensures device == old(device).(replies := Drop(old(device).replies))
      ensures sent == old(sent)
    {
      bytes := device.NextReply(max);
      device := device.(replies := Drop(device.replies));
    }
  }
}
