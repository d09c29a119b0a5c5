/**
 * The streams the facility composes, and the zip archive it builds.
 * Bytes are not modelled here: a stream is described by where it comes
 * from, and the archive by what was appended to it and whether it was
 * finalized.
 */
module Streams {
  import opened Values

  /** A readable byte stream. */
  datatype Stream =
    | Source(id: nat)                            // a caller's input stream
    | Gzip(input: Stream, options: Options)      // input piped into a gzip transform
    | Zip(archive: ZipArchive)                   // a zip archive's output

  /** One `archive.append(stream, metadata)` call. */
  datatype Appended = Appended(stream: Stream, meta: Options)

  /**
   * A zip archive as the archiving library presents it: created with its
   * options, then appended to in order, then finalized.
   */
  class ZipArchive {
    const options: Options
    var appended: seq<Appended>
    var finalized: bool

    constructor (options: Options)
      ensures this.options == options
      ensures appended == [] && !finalized
    {
      this.options := options;
      appended := [];
      finalized := false;
    }

    method Append(stream: Stream, meta: Options)
      modifies this
      ensures appended == old(appended) + [Appended(stream, meta)]
      ensures finalized == old(finalized)
    {
      appended := appended + [Appended(stream, meta)];
    }

    /** Signals that no more entries follow. */
    method Finalize()
      modifies this
      ensures finalized
      ensures appended == old(appended)
    {
      finalized := true;
    }
  }
}
