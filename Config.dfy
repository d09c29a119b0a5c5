/**
 * The facility's compression configuration: the allow-list applied to the
 * facility options at start, the gzip merge and the three-tier zip merge.
 */
module Config {
  import opened Values

  /** The nine zlib option names the facility keeps from its options. */
  const CompressionKeys: set<string> := {
    "flush", "finishFlush", "chunkSize", "windowBits", "level",
    "memLevel", "strategy", "dictionary", "info"
  }

  /** The zlib level an archive gets when nobody sets one. */
  const DefaultZipLevel: Value := Num(9)

  /**
   * The facility params kept at start: every allow-listed option present
   * in opts, with its value, and nothing else.
   */
  function FacilityParams(opts: Options): (params: Options)
    ensures forall k :: k in params <==> k in opts && k in CompressionKeys
    ensures forall k :: k in params ==> params[k] == opts[k]
  {
    Pick(opts, CompressionKeys)
  }

  /** The options handed to the gzip transform: per-call params over facility params. */
  function GzipOptions(facility: Options, perCall: Options): (r: Options)
    ensures forall k :: k in r <==> k in facility || k in perCall
    ensures forall k :: k in perCall ==> r[k] == perCall[k]
    ensures forall k :: k in facility && k !in perCall ==> r[k] == facility[k]
  {
    facility + perCall
  }

  /** What `{ ...(params.zlib || {}) }` contributes: every falsy value spreads to nothing. */
  function ZlibOverride(perCall: Options): (z: Options)
    ensures "zlib" !in perCall ==> z == map[]
    ensures "zlib" in perCall && perCall["zlib"].Obj? ==> z == perCall["zlib"].fields
    ensures "zlib" in perCall && perCall["zlib"].Str? ==> z == StringEntries(perCall["zlib"].s)
    ensures "zlib" in perCall && !perCall["zlib"].Obj? && !perCall["zlib"].Str? ==> z == map[]
  {
    if "zlib" in perCall then Spread(perCall["zlib"]) else map[]
  }

  /**
   * The archive's `zlib` sub-options: the built-in level 9, overridden by
   * the facility params, overridden by the per-call `zlib` object.
   */
  function ZlibOptions(facility: Options, perCall: Options): (z: Options)
    ensures forall k :: k in z <==> k == "level" || k in facility || k in ZlibOverride(perCall)
    ensures forall k :: k in ZlibOverride(perCall) ==> z[k] == ZlibOverride(perCall)[k]
    ensures forall k :: k in facility && k !in ZlibOverride(perCall) ==> z[k] == facility[k]
    ensures "level" !in facility && "level" !in ZlibOverride(perCall) ==> z["level"] == DefaultZipLevel
  {
    map["level" := DefaultZipLevel] + facility + ZlibOverride(perCall)
  }

  /**
   * The options handed to the archiver: the per-call params as they are,
   * except that `zlib` is replaced by the merged sub-options.
   */
  function ZipOptions(facility: Options, perCall: Options): (r: Options)
    ensures forall k :: k in r <==> k in perCall || k == "zlib"
    ensures forall k :: k in perCall && k != "zlib" ==> r[k] == perCall[k]
    ensures r["zlib"] == Obj(ZlibOptions(facility, perCall))
  {
    perCall["zlib" := Obj(ZlibOptions(facility, perCall))]
  }

  /**
   * The level an archive compresses at, for a facility started with opts:
   * the per-call `zlib.level`, else the facility's `level` option, else 9.
   */
  lemma ZipLevel(opts: Options, perCall: Options)
    ensures var z := ZipOptions(FacilityParams(opts), perCall)["zlib"].fields;
      z["level"] ==
        if "level" in ZlibOverride(perCall) then ZlibOverride(perCall)["level"]
        else if "level" in opts then opts["level"]
        else DefaultZipLevel
  {
  }

  /** Facility params reach the archiver only inside `zlib`, never at the top level. */
  lemma FacilityParamsNested(facility: Options, perCall: Options, k: string)
    requires k in facility && k !in perCall && k != "zlib"
    ensures k !in ZipOptions(facility, perCall)
    ensures k in ZipOptions(facility, perCall)["zlib"].fields
  {
  }

  /** With no per-call params the gzip transform gets exactly the facility params. */
  lemma GzipDefaults(facility: Options)
    ensures GzipOptions(facility, map[]) == facility
  {
  }
}
