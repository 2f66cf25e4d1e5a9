/** What the model keeps of a GPIO character device: line offsets, the
    edge events an input line reports, and the errors the driver returns. */
module Gpio {
  import opened Results

  /** Rust's `u32`. */
  type u32 = x: int | 0 <= x < 0x1_0000_0000

  /** One edge event as reported by the driver; its timestamp is opaque. */
  datatype Edge = RisingEdge(timestamp: nat)

  /** An error returned by the driver (an ioctl failure); its contents are opaque. */
  datatype GpioError = GpioError(code: int)

  /** The edge stream of an input line: every edge the line reports during
      the run, and how many of them have been read. Once all have been read
      the stream has ended, and an ended stream stays ended. */
  datatype EdgeStream = EdgeStream(edges: seq<Edge>, read: nat)
  {
    predicate Ended()
    {
      read >= |edges|
    }

    /** `next().await`: the next edge, or `None` once the stream has ended. */
    function Next(): (Option<Edge>, EdgeStream)
    {
      if Ended() then (None, this) else (Some(edges[read]), this.(read := read + 1))
    }
  }
}
