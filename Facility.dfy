/**
 * The deflate facility: it keeps the allow-listed compression options it
 * was started with, and offers gzip streams, zip archives, and buffered
 * versions of both.
 */
module Facility {
  import opened Values
  import opened Config
  import opened Streams
  import opened Buffering
  import opened Entries

  /** The entries' own streams, in list order. */
  ghost function EntryStreams(entries: seq<Entry>): (streams: seq<Stream>)
  {
    seq(|entries|, i requires 0 <= i < |entries| => entries[i].stream)
  }

  class DeflateFacility {
    /** The options the facility was constructed with. */
    const opts: Options
    /** The compression options kept at start; empty before, which spreads like undefined. */
    var params: Options
    /** The streams streamToBuffer has attached its handlers to, in order. */
    ghost var subscribed: seq<Stream>

    constructor (opts: Options)
      ensures this.opts == opts
      ensures params == map[] && subscribed == []
    {
      this.opts := opts;
      params := map[];
      subscribed := [];
    }

    /** Keeps the allow-listed compression options. */
    method Start()
      modifies this`params
      ensures params == FacilityParams(opts)
    {
      params := FacilityParams(opts);
    }

    /** readStream piped into a gzip transform configured with params overridden by perCall. */
    function CreateGzip(readStream: Stream, perCall: Options): (out: Stream)
      reads this
      ensures out.Gzip? && out.input == readStream
      ensures out.options == GzipOptions(params, perCall)
    {
      Gzip(readStream, GzipOptions(params, perCall))
    }

    /** Subscribes a fresh pending promise to stream. */
    method StreamToBuffer(stream: Stream) returns (promise: StreamBuffer)
      modifies this`subscribed
      ensures fresh(promise) && promise.source == stream && promise.State() == Idle
      ensures promise.sourceFinalized == (stream.Zip? && stream.archive.finalized)
      ensures subscribed == old(subscribed) + [stream]
    {
      promise := new StreamBuffer(stream);
      subscribed := subscribed + [stream];
    }

    /** A fresh, unfinalized archive holding one append per entry, numbering entries from 1. */
    method CreateZip(readStreams: seq<Entry>, perCall: Options) returns (archive: ZipArchive)
      ensures fresh(archive)
      ensures archive.options == ZipOptions(params, perCall)
      ensures archive.appended == Appends(readStreams)
      ensures !archive.finalized
    {
      archive := new ZipArchive(ZipOptions(params, perCall));
      var count := 1;
      for i := 0 to |readStreams|
        invariant count == i + 1
        invariant archive.appended == Appends(readStreams[..i])
        invariant !archive.finalized
      {
        assert readStreams[..i + 1][..i] == readStreams[..i];
        var entry := readStreams[i];
        var data := if entry.data.Undefined? then Obj(map["name" := Str(DefaultName(count))]) else entry.data;
        archive.Append(entry.stream, Pick(Spread(data), MetadataKeys));
        count := count + 1;
      }
      assert readStreams[..|readStreams|] == readStreams;
    }

    /** One promise for readStream's bytes, gzipped when isGzipOn, raw otherwise. */
    method CreateBuffGzip(readStream: Stream, isGzipOn: bool, perCall: Options) returns (promise: StreamBuffer)
      modifies this`subscribed
      ensures fresh(promise) && promise.State() == Idle
      ensures promise.source == if isGzipOn then CreateGzip(readStream, perCall) else readStream
      ensures subscribed == old(subscribed) + [promise.source]
    {
      var stream := if isGzipOn then CreateGzip(readStream, perCall) else readStream;
      promise := StreamToBuffer(stream);
    }

    /**
     * With isZipOn, one promise for a finalized archive of all entries,
     * whose handlers were attached while the archive was not yet finalized;
     * otherwise one promise per entry's
     * raw stream, in list order.
     */
    method CreateBuffZip(readStreams: seq<Entry>, isZipOn: bool, perCall: Options) returns (promises: seq<StreamBuffer>)
      modifies this`subscribed
      ensures |promises| == if isZipOn then 1 else |readStreams|
      ensures forall i :: 0 <= i < |promises| ==> fresh(promises[i]) && promises[i].State() == Idle
      ensures forall i, j :: 0 <= i < j < |promises| ==> promises[i] != promises[j]
      ensures isZipOn ==>
        && promises[0].source.Zip?
        && var archive := promises[0].source.archive;
        && fresh(archive)
        && archive.options == ZipOptions(params, perCall)
        && archive.appended == Appends(readStreams)
        && archive.finalized
        && !promises[0].sourceFinalized
        && subscribed == old(subscribed) + [Zip(archive)]
      ensures !isZipOn ==>
        && (forall i :: 0 <= i < |readStreams| ==> promises[i].source == readStreams[i].stream)
        && subscribed == old(subscribed) + EntryStreams(readStreams)
    {
      if isZipOn {
        var archive := CreateZip(readStreams, perCall);
        var promise := StreamToBuffer(Zip(archive));
        archive.Finalize();
        promises := [promise];
      } else {
        promises := [];
        for i := 0 to |readStreams|
          invariant |promises| == i
          invariant forall j :: 0 <= j < i ==>
            fresh(promises[j]) && promises[j].State() == Idle && promises[j].source == readStreams[j].stream
          invariant forall j, k :: 0 <= j < k < i ==> promises[j] != promises[k]
          invariant subscribed == old(subscribed) + EntryStreams(readStreams[..i])
        {
          assert EntryStreams(readStreams[..i + 1]) == EntryStreams(readStreams[..i]) + [readStreams[i].stream];
          var promise := StreamToBuffer(readStreams[i].stream);
          promises := promises + [promise];
        }
        assert readStreams[..|readStreams|] == readStreams;
      }
    }
  }
}
