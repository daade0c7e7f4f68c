/** What the driver's two packet rings answer (veiltun/session.go, as veiltun/device.go reads it). */
module Rings {
  import opened Octets

  type Packet = Bytes

  datatype Receipt = Received(packet: Packet) | NoMoreItems | HandleEof | ReceiveFailed
  datatype Allotment = Granted | BufferOverflow | AllocEof | AllocFailed
}
