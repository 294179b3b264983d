/**
 * The three byte-level transfer helpers of the driver, with the polled bus
 * reduced to the sequence of transfers it performs. Every transfer succeeds;
 * the bytes a read returns are supplied by the caller as the device's answer.
 */
module I2cBus {
  import opened CTypes

  /** One polled master transfer on the bus. */
  datatype BusOp =
    | MasterSend(addr: u8, bytes: seq<u8>)   // XIicPs_MasterSendPolled
    | MasterRecv(addr: u8, count: nat)       // XIicPs_MasterRecvPolled

  type Trace = seq<BusOp>

  /** A receive transfer: the transfers performed and the bytes copied to the caller's buffer. */
  datatype Received = Received(trace: Trace, data: seq<u8>)

  /** `XIicPs_MasterSendPolled(buff, count, addr)` puts the first `count` bytes of `buff` on the bus. */
  function SendPolled(buff: seq<u8>, count: nat, addr: u8): (op: BusOp)
    requires count <= |buff|
    ensures op.MasterSend? && op.addr == addr
    ensures |op.bytes| == count && forall i :: 0 <= i < count ==> op.bytes[i] == buff[i]
  {
    MasterSend(addr, buff[..count])
  }

  /** `I2CByteWrite`: a two-byte buffer `{data, 0}` of which only the first byte is sent. */
  function ByteWrite(deviceAddr: u8, data: u8): (t: Trace)
    ensures |t| == 1 && t[0].MasterSend? && t[0].addr == deviceAddr
    ensures t[0].bytes == [data]
  {
    var txBuff := [data, 0];
    [SendPolled(txBuff, 1, deviceAddr)]
  }

  /**
   * `I2CByteWrites`: the buffer is `{reg_addr, data_lsb, data_msb}`, so the
   * parameter named `dataLsb` travels right after the register pointer.
   */
  function ByteWrites(deviceAddr: u8, regAddr: u8, dataMsb: u8, dataLsb: u8): (t: Trace)
    ensures |t| == 1 && t[0].MasterSend? && t[0].addr == deviceAddr
    ensures |t[0].bytes| == 3
    ensures t[0].bytes[0] == regAddr && t[0].bytes[1] == dataLsb && t[0].bytes[2] == dataMsb
  {
    var txBuff := [regAddr, dataLsb, dataMsb];
    [SendPolled(txBuff, 3, deviceAddr)]
  }

  /**
   * `I2CReadBytes`: one two-byte receive; `answer0`, `answer1` are the bytes
   * the device puts on the bus, copied in order into the caller's buffer.
   */
  function ReadBytes(deviceAddr: u8, answer0: u8, answer1: u8): (r: Received)
    ensures r.trace == [MasterRecv(deviceAddr, 2)]
    ensures |r.data| == 2 && r.data[0] == answer0 && r.data[1] == answer1
  {
    var rxBuff := [answer0, answer1];
    Received([MasterRecv(deviceAddr, |rxBuff|)], [rxBuff[0], rxBuff[1]])
  }
}
