# photon-tools timestamp intake, modelled in Dafny

This project models the intake layer of photon-tools, a toolkit for
fluorescence correlation spectroscopy. Before any photon arrival times are
correlated they are read from one of three file kinds and validated. That
layer is `photon_tools/read_photons.py`:

- **File-type dispatch** (`determine_filetype`): a file name's suffix picks
  the format. `pt2` and `pt3` give the tag `pt2`, `timetag` gives `timetag`,
  `times` gives `raw`, and anything else is refused. The test is a plain
  string suffix with no dot, so `foopt2` is a PT2 file.
- **Stream validators** (`verify_monotonic`, `verify_continuity`): each counts
  the adjacent timestamp pairs it objects to and fails with that count when it
  is non-zero. Monotonicity objects to `times[i+1] <= times[i]`. Continuity
  objects to a gap larger than `gap_factor * tau`, where
  `tau = (times[-1] - times[0]) / len(times)`.
- **`TimestampFile`**: opening a file resolves the type, rejects channels the
  format cannot hold, reads the data and then runs both validators, monotonicity
  first.

Files:

- `wrappers.dfy`: `Option`, `Result` and `Outcome`.
- `errors.dfy`: module `PhotonErrors`, the `Error` datatype, with one
  constructor per exception the layer raises.
- `file_types.dfy`: module `FileTypes`, the suffix classifier.
- `stream_validation.dfy`: module `StreamValidation`, the two validators. Both
  are built on one count of flagged adjacent pairs (`CountFlagged`). The count's
  reference meaning is the cardinality of the set of flagged indices.
- `timestamp_files.dfy`: module `TimestampFiles`. `Open` is the specification
  of opening a file. The class `TimestampFile` has the three fields of the
  Python object. Its static method `OpenFile` assigns them step by step and is
  proved to agree with `Open`.

Modelling choices:

- Timestamps are unsigned 64-bit integers (`Timestamp`). Raw files are read with
  dtype `u8`, and the other readers are taken to deliver the same type. numpy's
  array subtraction in `verify_continuity` wraps modulo 2^64, modelled by `Sub64`.
  On strictly increasing data this is ordinary subtraction.
- `tau` is a floating-point quotient in the source. The gap test
  `gap > gap_factor * (span / n)` is read exactly, over integers, as
  `gap * n > gap_factor * span`.
- The divisor of `tau` is the element count `n`, as the code has it.
- An empty stream makes `verify_continuity` index `times[-1]` and raise
  `IndexError`. This is the `EmptyStream` error. A one-element stream passes
  both checks. A `.timetag` channel with at most 1024 strobe events is empty
  after the first 1024 are dropped, so it fails this way.
- The Python constructor either returns a fully set object or raises. A Dafny
  constructor cannot fail, so `TimestampFile.OpenFile` allocates the object
  (jiffy and metadata unset, as in lines 29-30, and data empty), fills it in
  and returns `Ok(object)` or `Err(error)`.
- The decoders (`read_pt2`, `get_strobe_events`, `np.fromfile`,
  `get_metadata`) are function-valued parameters bundled in `Readers`.
- Jiffies are exact reals: 4e-12 s for PT2 files and `1 / clockrate` for
  `.timetag` files that have metadata. A raw file, or a `.timetag` file
  without metadata, has no jiffy.

## Model

| member | source | states |
|---|---|---|
| `FileTypes.DetermineFiletype` | photon_tools/read_photons.py:4-9 | the result is one of the three tags; `pt2` exactly when the name ends in `pt2` or `pt3`, `timetag` exactly when it ends in `timetag`, `raw` exactly when it ends in `times`; "unrecognized file type" exactly when none of the four suffixes is present |
| `FileTypes.EndsWith` | photon_tools/read_photons.py:5-8 | `str.endswith`: a name that ends in the suffix is some string followed by the suffix, and every string followed by the suffix ends in it |
| `FileTypes.SuffixesExclusive` | photon_tools/read_photons.py:5-8 | a name carries at most one of the four suffixes, so the order of the tests in the chain does not matter |
| `FileTypes.SuffixDecides` | photon_tools/read_photons.py:5-8 | any prefix followed by `pt2`, `pt3`, `timetag` or `times` is classified by that suffix, with or without a dot |
| `StreamValidation.Sub64` | photon_tools/read_photons.py:20-21 | uint64 subtraction: the result is congruent to the difference modulo 2^64, and it is the plain difference when it does not go below zero |
| `StreamValidation.CountFlagged` | photon_tools/read_photons.py:13-14 | the number of flagged adjacent pairs is at most n - 1, and it is zero exactly when no adjacent pair is flagged |
| `StreamValidation.CountIsCardinality` | photon_tools/read_photons.py:13-15 | the count equals the number of indices i whose pair (times[i], times[i+1]) is flagged |
| `StreamValidation.CountConcat` | photon_tools/read_photons.py:13-14 | the count over a concatenation is the sum of the two counts plus the pair at the seam |
| `StreamValidation.NoneNonIncreasingIff` | photon_tools/read_photons.py:13-14 | no adjacent pair with times[i+1] <= times[i] if and only if the whole stream is strictly increasing |
| `StreamValidation.VerifyMonotonic` | photon_tools/read_photons.py:11-16 | passes if and only if the stream is strictly increasing (equal neighbours fail); on failure reports exactly the number of indices with times[i+1] <= times[i], which is positive |
| `StreamValidation.ShortStreamsAreMonotonic` | photon_tools/read_photons.py:13-14 | streams of length 0 or 1 pass the monotonicity check |
| `StreamValidation.SingleInversionCountsOnce` | photon_tools/read_photons.py:13-16 | two strictly increasing runs joined with one step down (or a repeat) are reported with a count of exactly 1 |
| `StreamValidation.GapTest` | photon_tools/read_photons.py:20-21 | the large-gap test is taken over the stream length n and the given gap factor, with the span last - first as a uint64 difference (plain when last >= first, wrapped by 2^64 otherwise); `GapTestIsTauTest` proves it is the source's `gap > gap_factor * tau` |
| `StreamValidation.GapTestIsTauTest` | photon_tools/read_photons.py:20-21 | the integer test gap * n > gap_factor * span holds exactly when gap > gap_factor * tau with tau = span / n computed exactly, so it is the source's test read without rounding |
| `StreamValidation.VerifyContinuity` | photon_tools/read_photons.py:18-23 | fails on an empty stream; otherwise passes if and only if no adjacent gap satisfies gap * n > gap_factor * span, and on failure reports exactly the number of such gaps |
| `StreamValidation.FlaggedGapsWithinSpan` | photon_tools/read_photons.py:20-22 | on a strictly increasing stream, (number of large gaps) * threshold <= span * n, strictly when there is a large gap |
| `StreamValidation.LargeGapsAreFew` | photon_tools/read_photons.py:20-22 | on a strictly increasing stream of n events, (number of large gaps) * gap_factor < n |
| `StreamValidation.ShortStreamsHaveNoLargeGaps` | photon_tools/read_photons.py:18-23 | a strictly increasing, non-empty stream of at most gap_factor events always passes the continuity check |
| `TimestampFiles.ChannelMask` | photon_tools/read_photons.py:46 | the strobe mask `1 << channel` for channels 0..3 is 1, 2, 4, 8 respectively |
| `TimestampFiles.DropFirst` | photon_tools/read_photons.py:46 | the slice `[1024:]`: empty when there are at most 1024 events, otherwise the events after the first 1024, element by element |
| `TimestampFiles.ResolveType` | photon_tools/read_photons.py:32-33 | a given type is used as it is; with none, the name's type is used (`pt2` exactly for a `pt2` or `pt3` suffix, `timetag` exactly for `timetag`, `raw` exactly for `times`), and the only failure is "unrecognized file type" when no type is given and the name has no known suffix |
| `TimestampFiles.ReadStream` | photon_tools/read_photons.py:35-54 | fails exactly for a `timetag` channel outside 0..3, a `raw` channel other than 0, or a type that is none of the three tags, each with its own error; PT2 gives jiffy 4 ps, no metadata and the reader's data; timetag gives the metadata read, a jiffy (the reciprocal of the clock rate) exactly when there is metadata, and the strobe events of mask 1 << channel after the first 1024 (none if there are at most 1024); raw gives no jiffy, no metadata and the file's words |
| `TimestampFiles.Validate` | photon_tools/read_photons.py:56-57 | passes exactly when the data is strictly increasing and passes the continuity check; non-monotonic data gets the monotonicity error, and monotonic data gets the continuity check's verdict |
| `TimestampFiles.Open` | photon_tools/read_photons.py:27-57 | a type that cannot be resolved or a reader choice that is refused gives that error; otherwise the file opens if and only if the data read passes both checks, holding exactly the fields read, and fails with the first check's error otherwise; an opened file holds a non-empty, strictly increasing stream that passes the continuity check with gap factor 1000 |
| `TimestampFiles.OmittedTypeIsDetermined` | photon_tools/read_photons.py:32-33 | with no file type given, opening fails with "unrecognized file type" or behaves as if the type the name implies had been given |
| `TimestampFiles.ChannelAndTypeRejection` | photon_tools/read_photons.py:39-54 | a `timetag` channel outside 0..3, a `raw` channel other than 0, and any other type (including an explicit `pt3`) are refused with their own errors |
| `TimestampFiles.OrderReportedBeforeGaps` | photon_tools/read_photons.py:56-57 | when the data read is not strictly increasing, opening fails with the monotonicity error, whatever its gaps |
| `TimestampFiles.GapsReportedAfterOrder` | photon_tools/read_photons.py:56-57 | strictly increasing data is opened when the continuity check passes, and otherwise fails with its error: the exact number of large gaps for non-empty data |
| `TimestampFiles.ValidFilesOpen` | photon_tools/read_photons.py:35-57 | a PT2 file, a timetag file on channel 0..3, or a raw file on channel 0 whose data passes both checks is opened with exactly the jiffy, metadata and data its branch assigns |
| `TimestampFiles.FormatContents` | photon_tools/read_photons.py:35-51 | PT2: jiffy 4 ps and the reader's data; timetag: channel in 0..3, the strobe events of mask 1 << channel after the first 1024, the metadata read, and a jiffy exactly when there is metadata; a timetag channel with at most 1024 events fails as an empty stream; raw: channel 0, no jiffy and the file's words |
| `TimestampFiles.TimestampFile.Empty` | photon_tools/read_photons.py:29-30 | jiffy and metadata start out unset |
| `TimestampFiles.TimestampFile.OpenFile` | photon_tools/read_photons.py:27-57 | fails exactly when `Open` does, with the same error; otherwise returns a fresh object whose jiffy, metadata and data are those `Open` gives, with strictly increasing data |

## Left out

- The correlator. It lives in a compiled extension that is not part of this
  model. The plotting and batch driver `fcs-plot.py` and the build script
  `setup.py` are not part of this model either.
- Binary decoding and I/O: `pt2_parse.read_pt2`, `timetag_parse.get_strobe_events`,
  `np.fromfile`, `metadata.get_metadata` and the `open(fname)` probe. The readers
  are supplied functions, and the errors they raise (missing file, bad format)
  are not modelled.
- Floating point: `tau`, `gap_factor * tau` and the jiffies are exact
  rationals here. The rounding of binary64 arithmetic is not modelled.
- `StreamValidation.VerifyContinuity`: `gap_factor` is a natural number here.
  Python accepts any number.
- `TimestampFiles.Metadata`: the clock rate is taken to be positive. A zero or
  missing `clockrate` entry, which would raise in Python, is not modelled.
  The object's metadata keeps only the clock rate; the other entries of the
  dictionary that `get_metadata` returns are not modelled.
- `TimestampFiles.TimestampFile.Empty`: `data` starts out as the empty
  sequence, whereas the Python object has no `data` attribute until a reader
  assigns it. No caller can observe the difference, since a failed open
  returns no object.
- Exception messages are modelled as error constructors carrying the reported
  count, not as formatted strings.
- The channel passed to the PT2 reader is not range-checked here, as in the
  source; whatever the reader does with a bad channel is not modelled.
