/**
 * The records the configuration service returns for a PC (data.go),
 * and the Go strings they are made of.
 */
module PcConfig {

  /** One byte of a Go string. */
  newtype byte = b: int | 0 <= b < 256

  /**
   * A Go `string`: an immutable sequence of bytes. `len(s)` and the slice
   * `s[:n]` count bytes, not runes, so a prefix may end inside a multi-byte
   * character.
   */
  type GoString = seq<byte>

  /** The bytes Go stores for a string literal written in ASCII. */
  function Bytes(s: string): (b: GoString)
    requires forall i | 0 <= i < |s| :: s[i] as int < 128
    ensures |b| == |s|
    ensures forall i | 0 <= i < |s| :: b[i] as int == s[i] as int
  {
    seq(|s|, i requires 0 <= i < |s| => s[i] as int as byte)
  }

  /** A preset position of a camera: its display name and the endpoint that recalls it. */
  datatype CameraPreset = CameraPreset(displayName: GoString, setPreset: GoString)

  /**
   * A camera and its control endpoints. Every endpoint is an opaque string
   * (usually a URL) that only the client interprets.
   */
  datatype Camera = Camera(
    displayName: GoString,
    tiltUp: GoString,
    tiltDown: GoString,
    panLeft: GoString,
    panRight: GoString,
    panTiltStop: GoString,
    zoomIn: GoString,
    zoomOut: GoString,
    zoomStop: GoString,
    stream: GoString,
    presets: seq<CameraPreset>)
}
