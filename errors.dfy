/** The exceptions raised while opening and validating a timestamp file. */
module PhotonErrors {

  datatype Error =
    | UnrecognizedFileType      // determine_filetype: no known suffix
    | TimetagChannelRange       // a .timetag channel outside 0..3
    | RawChannelRange           // a raw channel other than 0
    | UnknownFileType           // an explicit file type that is none of the three tags
    | NonMonotonic(count: nat)  // number of adjacent pairs that do not increase
    | LargeGaps(count: nat)     // number of adjacent gaps above the threshold
    | EmptyStream               // the IndexError of `times[-1]` on an empty stream
}
