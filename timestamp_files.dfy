/**
 * Opening a photon timestamp file: the reader is chosen by file type, the
 * channel is checked against the format, and the stream read is validated
 * for monotonicity and then for continuity.
 */
module TimestampFiles {
  import opened Wrappers
  import opened PhotonErrors
  import opened FileTypes
  import opened StreamValidation

  /** The clock rate a .timetag file's metadata records, in ticks per second. */
  type ClockRate = r: real | r > 0.0 witness 1.0

  datatype Metadata = Metadata(clockrate: ClockRate)

  /**
   * The binary decoders, supplied from outside: the PT2 reader (file name,
   * channel), the strobe-event reader (file name, channel mask), the raw
   * little-endian uint64 reader, and the metadata lookup.
   */
  datatype Readers = Readers(
    readPt2: (string, int) -> seq<Timestamp>,
    strobeEvents: (string, nat) -> seq<Timestamp>,
    fromFile: string -> seq<Timestamp>,
    getMetadata: string -> Option<Metadata>)

  /** Seconds per tick of a PT2 file: 4 picoseconds. */
  const PT2_JIFFY: real := 0.000000000004

  /** Number of leading strobe events discarded from a .timetag channel. */
  const SKIPPED_STROBE_EVENTS: nat := 1024

  /** What a successfully opened file holds. */
  datatype Opened = Opened(jiffy: Option<real>, metadata: Option<Metadata>, data: seq<Timestamp>)

  /** The strobe-channel mask `1 << channel`. */
  function ChannelMask(channel: int): (mask: nat)
    requires 0 <= channel < 4
    ensures mask == [1, 2, 4, 8][channel]
  {
    if channel == 0 then 1 else 2 * ChannelMask(channel - 1)
  }

  /** Python's `events[k:]`: empty when there are no more than k events. */
  function DropFirst(events: seq<Timestamp>, k: nat): (r: seq<Timestamp>)
    ensures |events| <= k ==> r == []
    ensures |events| > k ==> |r| == |events| - k && forall i :: 0 <= i < |r| ==> r[i] == events[k + i]
  {
    if |events| <= k then [] else events[k..]
  }

  /** The file type used: the one given, or else the one its name implies. */
  function ResolveType(fname: string, ftype: Option<string>): (r: Result<string, Error>)
    ensures ftype.Some? ==> r == Ok(ftype.value)
    ensures ftype.None? && r.Ok? ==> r.value in {PT2_TAG, TIMETAG_TAG, RAW_TAG}
    ensures ftype.None? ==>
      (r == Ok(PT2_TAG) <==> EndsWith(fname, "pt2") || EndsWith(fname, "pt3")) &&
      (r == Ok(TIMETAG_TAG) <==> EndsWith(fname, "timetag")) &&
      (r == Ok(RAW_TAG) <==> EndsWith(fname, "times"))
    ensures r.Err? <==> ftype.None? && DetermineFiletype(fname).Err?
    ensures r.Err? ==> r.error == UnrecognizedFileType
  {
    match ftype
    case Some(t) => Ok(t)
    case None => DetermineFiletype(fname)
  }

  /**
   * The fields the chosen reader fills in, before validation: refused
   * exactly for a channel the format cannot hold or an unknown type.
   */
  function ReadStream(fname: string, channel: int, ftype: string, readers: Readers): (r: Result<Opened, Error>)
    ensures r.Err? <==>
      (ftype == TIMETAG_TAG && !(0 <= channel < 4)) ||
      (ftype == RAW_TAG && channel != 0) ||
      ftype !in {PT2_TAG, TIMETAG_TAG, RAW_TAG}
    ensures r.Err? && ftype == TIMETAG_TAG ==> r.error == TimetagChannelRange
    ensures r.Err? && ftype == RAW_TAG ==> r.error == RawChannelRange
    ensures r.Err? && ftype != TIMETAG_TAG && ftype != RAW_TAG ==> r.error == UnknownFileType
    ensures ftype == PT2_TAG ==> r == Ok(Opened(Some(PT2_JIFFY), None, readers.readPt2(fname, channel)))
    ensures ftype == TIMETAG_TAG && r.Ok? ==>
      var events := readers.strobeEvents(fname, [1, 2, 4, 8][channel]);
      r.value.metadata == readers.getMetadata(fname) &&
      (r.value.jiffy.Some? <==> r.value.metadata.Some?) &&
      (r.value.jiffy.Some? ==> r.value.jiffy.value * r.value.metadata.value.clockrate == 1.0) &&
      (|events| <= SKIPPED_STROBE_EVENTS ==> r.value.data == []) &&
      (|events| > SKIPPED_STROBE_EVENTS ==> r.value.data == events[SKIPPED_STROBE_EVENTS..])
    ensures ftype == RAW_TAG && r.Ok? ==> r.value == Opened(None, None, readers.fromFile(fname))
  {
    if ftype == PT2_TAG then
      Ok(Opened(Some(PT2_JIFFY), None, readers.readPt2(fname, channel)))
    else if ftype == TIMETAG_TAG then
      if !(0 <= channel < 4) then Err(TimetagChannelRange)
      else
        var metadata := readers.getMetadata(fname);
        var jiffy := if metadata.Some? then Some(1.0 / metadata.value.clockrate) else None;
        Ok(Opened(jiffy, metadata, DropFirst(readers.strobeEvents(fname, ChannelMask(channel)), SKIPPED_STROBE_EVENTS)))
    else if ftype == RAW_TAG then
      if channel != 0 then Err(RawChannelRange)
      else Ok(Opened(None, None, readers.fromFile(fname)))
    else
      Err(UnknownFileType)
  }

  /** Monotonicity first, then continuity with the default gap factor. */
  function Validate(data: seq<Timestamp>): (r: Outcome<Error>)
    ensures r == Pass <==> StrictlyIncreasing(data) && VerifyContinuity(data, DEFAULT_GAP_FACTOR) == Pass
    ensures !StrictlyIncreasing(data) ==> r == VerifyMonotonic(data)
    ensures StrictlyIncreasing(data) ==> r == VerifyContinuity(data, DEFAULT_GAP_FACTOR)
  {
    match VerifyMonotonic(data)
    case Fail(e) => Fail(e)
    case Pass => VerifyContinuity(data, DEFAULT_GAP_FACTOR)
  }

  /**
   * The specification of opening a timestamp file: the opened fields, or
   * the first error raised along the way.
   */
  function Open(fname: string, channel: int, ftype: Option<string>, readers: Readers): (r: Result<Opened, Error>)
    ensures r.Ok? ==> |r.value.data| > 0 && StrictlyIncreasing(r.value.data)
    ensures r.Ok? ==> VerifyContinuity(r.value.data, DEFAULT_GAP_FACTOR) == Pass
    ensures ResolveType(fname, ftype).Err? ==> r == Err(ResolveType(fname, ftype).error)
    ensures ResolveType(fname, ftype).Ok? ==>
      var read := ReadStream(fname, channel, ResolveType(fname, ftype).value, readers);
      (read.Err? ==> r == Err(read.error)) &&
      (read.Ok? ==> (r.Ok? <==> Validate(read.value.data) == Pass)) &&
      (read.Ok? && r.Ok? ==> r.value == read.value) &&
      (read.Ok? && r.Err? ==> r.error == Validate(read.value.data).error)
  {
    match ResolveType(fname, ftype)
    case Err(e) => Err(e)
    case Ok(t) =>
      match ReadStream(fname, channel, t, readers)
      case Err(e) => Err(e)
      case Ok(stream) =>
        match Validate(stream.data)
        case Fail(e) => Err(e)
        case Pass => Ok(stream)
  }

  /** Omitting the file type is the same as passing the type the name implies. */
  lemma OmittedTypeIsDetermined(fname: string, channel: int, readers: Readers)
    ensures DetermineFiletype(fname).Err? ==> Open(fname, channel, None, readers) == Err(UnrecognizedFileType)
    ensures DetermineFiletype(fname).Ok? ==>
      Open(fname, channel, None, readers) == Open(fname, channel, Some(DetermineFiletype(fname).value), readers)
  {
  }

  /** Channels each format cannot hold, and unknown types, are refused before anything is read. */
  lemma ChannelAndTypeRejection(fname: string, channel: int, ftype: string, readers: Readers)
    ensures ftype == TIMETAG_TAG && !(0 <= channel < 4) ==>
      Open(fname, channel, Some(ftype), readers) == Err(TimetagChannelRange)
    ensures ftype == RAW_TAG && channel != 0 ==>
      Open(fname, channel, Some(ftype), readers) == Err(RawChannelRange)
    ensures ftype !in {PT2_TAG, TIMETAG_TAG, RAW_TAG} ==>
      Open(fname, channel, Some(ftype), readers) == Err(UnknownFileType)
  {
  }

  /** Data read in the wrong order is reported as such, whatever its gaps. */
  lemma OrderReportedBeforeGaps(fname: string, channel: int, ftype: Option<string>, readers: Readers)
    requires ResolveType(fname, ftype).Ok?
    requires ReadStream(fname, channel, ResolveType(fname, ftype).value, readers).Ok?
    requires !StrictlyIncreasing(ReadStream(fname, channel, ResolveType(fname, ftype).value, readers).value.data)
    ensures Open(fname, channel, ftype, readers).Err?
    ensures Open(fname, channel, ftype, readers).error.NonMonotonic?
  {
  }

  /**
   * Strictly increasing data is judged by the continuity check alone: it is
   * opened when that passes, and otherwise fails with the number of large
   * gaps (or as an empty stream).
   */
  lemma GapsReportedAfterOrder(fname: string, channel: int, ftype: Option<string>, readers: Readers)
    requires ResolveType(fname, ftype).Ok?
    requires ReadStream(fname, channel, ResolveType(fname, ftype).value, readers).Ok?
    requires StrictlyIncreasing(ReadStream(fname, channel, ResolveType(fname, ftype).value, readers).value.data)
    ensures var stream := ReadStream(fname, channel, ResolveType(fname, ftype).value, readers).value;
      var continuity := VerifyContinuity(stream.data, DEFAULT_GAP_FACTOR);
      Open(fname, channel, ftype, readers) == if continuity.Pass? then Ok(stream) else Err(continuity.error)
    ensures var data := ReadStream(fname, channel, ResolveType(fname, ftype).value, readers).value.data;
      |data| > 0 && VerifyContinuity(data, DEFAULT_GAP_FACTOR).Fail? ==>
        Open(fname, channel, ftype, readers) ==
          Err(LargeGaps(|FlaggedIndices(GapTest(data, DEFAULT_GAP_FACTOR), data)|))
  {
  }

  /**
   * A file of each known type, on a channel it holds, whose data is strictly
   * increasing and free of large gaps, is opened with exactly the fields its
   * reader gives.
   */
  lemma {:induction false} ValidFilesOpen(fname: string, channel: int, readers: Readers)
    ensures var data := readers.readPt2(fname, channel);
      Validate(data) == Pass ==>
        Open(fname, channel, Some(PT2_TAG), readers) == Ok(Opened(Some(PT2_JIFFY), None, data))
    ensures 0 <= channel < 4 ==>
      var metadata := readers.getMetadata(fname);
      var data := DropFirst(readers.strobeEvents(fname, ChannelMask(channel)), SKIPPED_STROBE_EVENTS);
      Validate(data) == Pass ==>
        Open(fname, channel, Some(TIMETAG_TAG), readers) ==
          Ok(Opened(if metadata.Some? then Some(1.0 / metadata.value.clockrate) else None, metadata, data))
    ensures var data := readers.fromFile(fname);
      channel == 0 && Validate(data) == Pass ==>
        Open(fname, channel, Some(RAW_TAG), readers) == Ok(Opened(None, None, data))
  {
  }

  /**
   * What each format yields: PT2 files carry a 4 ps jiffy and the channel's
   * events; .timetag files carry the strobe events of mask 1 << channel minus
   * the first 1024, so a channel with at most 1024 events is an empty stream;
   * raw files carry the file's words and no jiffy.
   */
  lemma FormatContents(fname: string, channel: int, readers: Readers)
    ensures var r := Open(fname, channel, Some(PT2_TAG), readers);
      r.Ok? ==> r.value.jiffy == Some(PT2_JIFFY) && r.value.data == readers.readPt2(fname, channel)
    ensures var r := Open(fname, channel, Some(TIMETAG_TAG), readers);
      r.Ok? ==> (
        0 <= channel < 4 &&
        var events := readers.strobeEvents(fname, ChannelMask(channel));
        |events| > SKIPPED_STROBE_EVENTS && r.value.data == events[SKIPPED_STROBE_EVENTS..] &&
        r.value.metadata == readers.getMetadata(fname) &&
        (r.value.jiffy.Some? <==> r.value.metadata.Some?))
    ensures 0 <= channel < 4 && |readers.strobeEvents(fname, ChannelMask(channel))| <= SKIPPED_STROBE_EVENTS ==>
      Open(fname, channel, Some(TIMETAG_TAG), readers) == Err(EmptyStream)
    ensures var r := Open(fname, channel, Some(RAW_TAG), readers);
      r.Ok? ==> channel == 0 && r.value.jiffy == None && r.value.data == readers.fromFile(fname)
  {
  }

  /** A timestamp file as the Python class holds it. */
  class TimestampFile {
    var jiffy: Option<real>
    var metadata: Option<Metadata>
    var data: seq<Timestamp>

    /** Fields start out unset. */
    constructor Empty()
      ensures jiffy == None && metadata == None && data == []
    {
      jiffy := None;
      metadata := None;
      data := [];
    }

    /**
     * Opens `fname` on `channel`: fills in the fields step by step as the
     * chosen reader dictates, then validates the data. Succeeds with a fresh
     * object holding exactly what `Open` specifies, or fails with its error.
     */
    static method OpenFile(fname: string, channel: int, ftype: Option<string>, readers: Readers)
      returns (r: Result<TimestampFile, Error>)
      ensures r.Err? <==> Open(fname, channel, ftype, readers).Err?
      ensures r.Err? ==> r.error == Open(fname, channel, ftype, readers).error
      ensures r.Ok? ==> fresh(r.value)
      ensures r.Ok? ==>
        Opened(r.value.jiffy, r.value.metadata, r.value.data) == Open(fname, channel, ftype, readers).value
      ensures r.Ok? ==> StrictlyIncreasing(r.value.data)
    {
      var f := new TimestampFile.Empty();
      var t: string;
      if ftype.None? {
        var determined := DetermineFiletype(fname);
        if determined.Err? {
          return Err(determined.error);
        }
        t := determined.value;
      } else {
        t := ftype.value;
      }

      if t == PT2_TAG {
        f.jiffy := Some(PT2_JIFFY);
        f.data := readers.readPt2(fname, channel);
      } else if t == TIMETAG_TAG {
        if !(0 <= channel < 4) {
          return Err(TimetagChannelRange);
        }
        f.metadata := readers.getMetadata(fname);
        if f.metadata.Some? {
          f.jiffy := Some(1.0 / f.metadata.value.clockrate);
        }
        f.data := DropFirst(readers.strobeEvents(fname, ChannelMask(channel)), SKIPPED_STROBE_EVENTS);
      } else if t == RAW_TAG {
        if channel != 0 {
          return Err(RawChannelRange);
        }
        f.data := readers.fromFile(fname);
      } else {
        return Err(UnknownFileType);
      }
      assert ReadStream(fname, channel, t, readers) == Ok(Opened(f.jiffy, f.metadata, f.data));

      var monotonic := VerifyMonotonic(f.data);
      if monotonic.Fail? {
        return Err(monotonic.error);
      }
      var continuous := VerifyContinuity(f.data, DEFAULT_GAP_FACTOR);
      if continuous.Fail? {
        return Err(continuous.error);
      }
      return Ok(f);
    }
  }
}
